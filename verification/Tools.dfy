/**
  Governed tool calls (platform_core/agent/tools.py, platform_core/api/routes/approvals.py)
  as a state machine: many invocations, each of which may crash between any two of its
  transactions, share one table of execution receipts and one of approvals.
 */
module Tools {
  import opened Prelude

  type CallId = nat
  type ApprovalId = nat
  type PrincipalId = nat
  type Key = string
  type Digest = string

  // ---------------------------------------------------------------- the registry

  datatype Spec = Spec(name: string, write: bool, requiresApproval: bool)

  /** ToolSpec.__post_init__: a write tool cannot be declared without its approval gate. */
  predicate ValidSpec(spec: Spec) { spec.write ==> spec.requiresApproval }

  predicate ValidRegistry(tools: map<string, Spec>) {
    forall name :: name in tools ==> tools[name].name == name && ValidSpec(tools[name])
  }

  class ToolRegistry {
    var tools: map<string, Spec>

    constructor ()
      ensures tools == map[]
    {
      tools := map[];
    }

    /** Refuses an ungated write tool and a second registration of a name. */
    method Register(spec: Spec) returns (ok: bool)
      requires ValidRegistry(tools)
      modifies this
      ensures ok <==> ValidSpec(spec) && spec.name !in old(tools)
      ensures tools == if ok then old(tools)[spec.name := spec] else old(tools)
      ensures ValidRegistry(tools)
    {
      ok := (!spec.write || spec.requiresApproval) && spec.name !in tools;
      if ok {
        tools := tools[spec.name := spec];
      }
    }
  }

  // ---------------------------------------------------------------- the tables

  datatype Verdict = Pending | Approved | Rejected

  datatype Approval = Approval(
    run: RunId, tool: string, sha: Digest, requestedBy: PrincipalId,
    verdict: Verdict, decidedBy: Option<PrincipalId>, expiresAt: Time, consumedAt: Option<Time>)

  datatype ReceiptStatus = Started | Succeeded | Failed | NeedsReconciliation

  /** `owner` and `returned` are history: the invocation that inserted the row, and whether its handler returned. */
  datatype Receipt = Receipt(
    run: RunId, approval: Option<ApprovalId>, spec: Spec, sha: Digest,
    status: ReceiptStatus, result: Option<Value>, owner: CallId, returned: bool)

  datatype Outcome =
    | Success(value: Value)
    | Replayed(value: Value)
    | AwaitingApproval(id: ApprovalId)
    | Conflict
    | ApprovalInvalid
    | Unavailable
    | Died

  datatype Pc =
    | Looking
    | Requesting
    | Starting
    | Ready
    | Running
    | Returned(value: Value, fits: bool)
    | Raised
    | Ended(outcome: Outcome)

  datatype Call = Call(
    spec: Spec, run: RunId, key: Key, sha: Digest, approval: Option<ApprovalId>, who: PrincipalId, pc: Pc)

  /** A handler was entered: the trace of what the outside world saw. */
  datatype Start = Start(key: Key, spec: Spec, run: RunId, sha: Digest, approval: Option<ApprovalId>)

  datatype State = State(
    clock: Time,
    runs: set<RunId>,
    approvals: seq<Approval>,
    receipts: map<Key, Receipt>,
    calls: map<CallId, Call>,
    starts: seq<Start>)

  datatype Move =
    | Look
    | Request(ttl: Time)
    | Begin
    | Launch
    | Return(value: Value, fits: bool)
    | Raise
    | Commit
    | Lose(outcome: Outcome)

  datatype Event =
    | Invoke(now: Time, id: CallId, spec: Spec, run: RunId, key: Key, sha: Digest,
             approval: Option<ApprovalId>, who: PrincipalId)
    | Act(now: Time, id: CallId, move: Move)
    | Decide(now: Time, which: ApprovalId, who: PrincipalId, approve: bool)

  // ---------------------------------------------------------------- the transactions

  /** _resolve_existing: only the same call's success is replayed. */
  function Resolve(row: Receipt, call: Call): Outcome {
    if row.spec.name != call.spec.name || row.sha != call.sha then Conflict
    else if row.status.Succeeded? && row.result.Some? then Replayed(row.result.value)
    else Unavailable
  }

  /** The approval _request_approval would hand back rather than insert another. */
  predicate Reusable(a: Approval, call: Call, now: Time) {
    && a.run == call.run && a.tool == call.spec.name && a.sha == call.sha && a.requestedBy == call.who
    && !a.verdict.Rejected? && a.consumedAt.None? && a.expiresAt > now
  }

  /** Index of the newest reusable approval, or -1. */
  function Newest(approvals: seq<Approval>, call: Call, now: Time): (i: int)
    ensures -1 <= i < |approvals|
    ensures i >= 0 ==> Reusable(approvals[i], call, now)
    ensures forall j :: i < j < |approvals| ==> !Reusable(approvals[j], call, now)
  {
    if approvals == [] then -1
    else if Reusable(approvals[|approvals| - 1], call, now) then |approvals| - 1
    else Newest(approvals[..|approvals| - 1], call, now)
  }

  /** The WHERE clause that consumes an approval. */
  predicate Consumable(a: Approval, call: Call, now: Time) {
    && a.run == call.run && a.tool == call.spec.name && a.sha == call.sha
    && a.verdict.Approved? && a.consumedAt.None? && a.expiresAt > now
  }

  function SetPc(s: State, id: CallId, pc: Pc): State
    requires id in s.calls
  {
    s.(calls := s.calls[id := s.calls[id].(pc := pc)])
  }

  function DoLook(s: State, id: CallId): State
    requires id in s.calls
  {
    var call := s.calls[id];
    if !call.pc.Looking? then s
    else if call.key in s.receipts then SetPc(s, id, Ended(Resolve(s.receipts[call.key], call)))
    else SetPc(s, id, if call.spec.requiresApproval && call.approval.None? then Requesting else Starting)
  }

  function DoRequest(s: State, id: CallId, now: Time, ttl: Time): State
    requires id in s.calls
  {
    var call := s.calls[id];
    if !call.pc.Requesting? then s
    else if call.run !in s.runs then SetPc(s, id, Ended(Conflict))
    else
      var i := Newest(s.approvals, call, now);
      if i >= 0 then SetPc(s, id, Ended(AwaitingApproval(i)))
      else
        SetPc(s.(approvals := s.approvals + [Approval(call.run, call.spec.name, call.sha, call.who, Pending, None, now + ttl, None)]),
              id, Ended(AwaitingApproval(|s.approvals|)))
  }

  /** _start_execution: the receipt and the consumed approval commit together or not at all. */
  function DoBegin(s: State, id: CallId, now: Time): State
    requires id in s.calls
  {
    var call := s.calls[id];
    if !call.pc.Starting? then s
    else if call.run !in s.runs || call.key in s.receipts then
      SetPc(s, id, Ended(if call.key in s.receipts then Resolve(s.receipts[call.key], call) else Conflict))
    else
      var row := Receipt(call.run, call.approval, call.spec, call.sha, Started, None, id, false);
      if !call.spec.requiresApproval then
        SetPc(s.(receipts := s.receipts[call.key := row]), id, Ready)
      else if call.approval.Some? && call.approval.value < |s.approvals| &&
              Consumable(s.approvals[call.approval.value], call, now) then
        var a := call.approval.value;
        SetPc(s.(receipts := s.receipts[call.key := row],
                 approvals := s.approvals[a := s.approvals[a].(consumedAt := Some(now))]), id, Ready)
      else SetPc(s, id, Ended(ApprovalInvalid))
  }

  function DoLaunch(s: State, id: CallId): State
    requires id in s.calls
  {
    var call := s.calls[id];
    if !call.pc.Ready? then s
    else SetPc(s.(starts := s.starts + [Start(call.key, call.spec, call.run, call.sha, call.approval)]), id, Running)
  }

  function DoReturn(s: State, id: CallId, value: Value, fits: bool): State
    requires id in s.calls
  {
    var call := s.calls[id];
    if !call.pc.Running? || call.key !in s.receipts then s
    else SetPc(s.(receipts := s.receipts[call.key := s.receipts[call.key].(returned := true)]), id, Returned(value, fits))
  }

  /** An exception, a timeout or a cancellation, before or inside the handler. */
  function DoRaise(s: State, id: CallId): State
    requires id in s.calls
  {
    if s.calls[id].pc.Ready? || s.calls[id].pc.Running? then SetPc(s, id, Raised) else s
  }

  function FailureStatus(spec: Spec): ReceiptStatus {
    if spec.write then NeedsReconciliation else Failed
  }

  /** UPDATE tool_execution … WHERE id = :id AND status = 'started' */
  function Finish(row: Receipt, status: ReceiptStatus, result: Option<Value>): Receipt {
    if row.status.Started? then row.(status := status, result := result) else row
  }

  /** The transaction that closes the receipt, and what the caller is told. */
  function DoCommit(s: State, id: CallId): State
    requires id in s.calls
  {
    var call := s.calls[id];
    if call.key !in s.receipts then s
    else
      var row := s.receipts[call.key];
      match call.pc
      case Returned(value, fits) =>
        if fits then
          SetPc(s.(receipts := s.receipts[call.key := Finish(row, Succeeded, Some(value))]), id,
                Ended(if row.status.Started? then Success(value) else Unavailable))
        else
          SetPc(s.(receipts := s.receipts[call.key := Finish(row, Failed, None)]), id, Ended(Unavailable))
      case Raised =>
        SetPc(s.(receipts := s.receipts[call.key := Finish(row, FailureStatus(call.spec), None)]), id, Ended(Unavailable))
      case _ => s
  }

  /** A transaction failed, or the process died: nothing is written. */
  function DoLose(s: State, id: CallId, outcome: Outcome): State
    requires id in s.calls
  {
    if s.calls[id].pc.Ended? || !(outcome.Unavailable? || outcome.Died?) then s else SetPc(s, id, Ended(outcome))
  }

  /** decide: only a pending, unexpired request, and never the requester's own. */
  function DoDecide(s: State, now: Time, a: ApprovalId, who: PrincipalId, approve: bool): State {
    if a < |s.approvals| && s.approvals[a].verdict.Pending? && s.approvals[a].expiresAt > now &&
       who != s.approvals[a].requestedBy
    then
      s.(approvals := s.approvals[a :=
        s.approvals[a].(verdict := if approve then Approved else Rejected, decidedBy := Some(who))])
    else s
  }

  function DoInvoke(s: State, e: Event): State
    requires e.Invoke?
  {
    if e.id in s.calls || !ValidSpec(e.spec) then s
    else s.(calls := s.calls[e.id := Call(e.spec, e.run, e.key, e.sha, e.approval, e.who, Looking)])
  }

  function Perform(s: State, now: Time, id: CallId, move: Move): State
    requires id in s.calls
  {
    match move
    case Look => DoLook(s, id)
    case Request(ttl) => DoRequest(s, id, now, ttl)
    case Begin => DoBegin(s, id, now)
    case Launch => DoLaunch(s, id)
    case Return(value, fits) => DoReturn(s, id, value, fits)
    case Raise => DoRaise(s, id)
    case Commit => DoCommit(s, id)
    case Lose(outcome) => DoLose(s, id, outcome)
  }

  function Step(s: State, e: Event): State {
    if e.now < s.clock then s
    else
      var t := s.(clock := e.now);
      match e
      case Invoke(_, _, _, _, _, _, _, _) => DoInvoke(t, e)
      case Act(now, id, move) => if id in t.calls then Perform(t, now, id, move) else t
      case Decide(now, a, who, approve) => DoDecide(t, now, a, who, approve)
  }

  function Play(s: State, es: seq<Event>): State
    decreases |es|
  {
    if es == [] then s else Play(Step(s, es[0]), es[1..])
  }

  predicate Initial(s: State) {
    s.approvals == [] && s.receipts == map[] && s.calls == map[] && s.starts == []
  }

  // ---------------------------------------------------------------- the invariant

  /** The invocation has committed its receipt and not yet ended. */
  predicate Executing(pc: Pc) { pc.Ready? || pc.Running? || pc.Returned? || pc.Raised? }

  /** The call's receipt is its own, and no more than the call's position says has happened. */
  predicate OwnsReceipt(s: State, id: CallId) {
    id in s.calls && Executing(s.calls[id].pc) ==>
      var call := s.calls[id];
      && call.key in s.receipts
      && var row := s.receipts[call.key];
      && row.owner == id && row.status.Started? && row.spec == call.spec && row.sha == call.sha
      && row.run == call.run && row.approval == call.approval
      && (call.pc.Returned? ==> row.returned)
      && (call.pc.Ready? ==> forall k :: 0 <= k < |s.starts| ==> s.starts[k].key != call.key)
  }

  /** What a handler start tells about the tables, for ever after. */
  predicate StartBacked(s: State, start: Start) {
    && start.key in s.receipts
    && var row := s.receipts[start.key];
    && row.spec == start.spec && row.sha == start.sha && row.run == start.run && row.approval == start.approval
  }

  /** The approval was given by someone else, was unexpired when consumed, and is for exactly this call. */
  predicate ProperlyApproved(s: State, row: Receipt) {
    && row.approval.Some? && row.approval.value < |s.approvals|
    && var a := s.approvals[row.approval.value];
    && a.run == row.run && a.tool == row.spec.name && a.sha == row.sha
    && a.verdict.Approved? && a.decidedBy.Some? && a.decidedBy.value != a.requestedBy
    && a.consumedAt.Some? && a.consumedAt.value < a.expiresAt
  }

  predicate ReceiptSound(s: State, key: Key) {
    key in s.receipts ==>
      var row := s.receipts[key];
      && ValidSpec(row.spec)
      && (row.spec.requiresApproval ==> ProperlyApproved(s, row))
      && (row.status.Succeeded? <==> row.result.Some?)
      && (row.status.Succeeded? ==> row.returned)
      && (row.spec.write && row.status.Failed? ==> row.returned)
  }

  predicate ApprovalSound(a: Approval) {
    && (a.consumedAt.Some? ==> a.verdict.Approved?)
    && (a.verdict.Approved? ==> a.decidedBy.Some? && a.decidedBy.value != a.requestedBy)
  }

  predicate Gated(s: State, key: Key)
    requires key in s.receipts
  {
    s.receipts[key].spec.requiresApproval
  }

  /** No approval stands behind two receipts. */
  ghost predicate ApprovalsNotShared(s: State) {
    forall k: Key, m: Key :: k in s.receipts && m in s.receipts && k != m && Gated(s, k) && Gated(s, m) ==>
      s.receipts[k].approval != s.receipts[m].approval
  }

  /** What the caller was told is what the receipt says. */
  predicate OutcomeTrue(s: State, id: CallId) {
    id in s.calls && s.calls[id].pc.Ended? ==>
      var call := s.calls[id];
      match call.pc.outcome
      case Success(value) => ReceiptShows(s, call, value)
      case Replayed(value) => ReceiptShows(s, call, value)
      case _ => true
  }

  predicate ReceiptShows(s: State, call: Call, value: Value) {
    && call.key in s.receipts
    && var row := s.receipts[call.key];
    && row.spec.name == call.spec.name && row.sha == call.sha && row.status.Succeeded? && row.result == Some(value)
  }

  ghost predicate Inv(s: State) {
    && (forall id: CallId :: id in s.calls ==> ValidSpec(s.calls[id].spec) && OwnsReceipt(s, id) && OutcomeTrue(s, id))
    && (forall k :: 0 <= k < |s.starts| ==> StartBacked(s, s.starts[k]))
    && (forall k, m :: 0 <= k < m < |s.starts| ==> s.starts[k].key != s.starts[m].key)
    && (forall key: Key :: key in s.receipts ==> ReceiptSound(s, key))
    && (forall i :: 0 <= i < |s.approvals| ==> ApprovalSound(s.approvals[i]))
    && ApprovalsNotShared(s)
  }

  lemma SetPcKeepsInv(s: State, id: CallId, pc: Pc)
    requires Inv(s) && id in s.calls
    requires pc.Ended? || !Executing(pc) || (pc.Raised? && Executing(s.calls[id].pc))
    requires OutcomeTrue(SetPc(s, id, pc), id)
    ensures Inv(SetPc(s, id, pc))
  {
    var t := SetPc(s, id, pc);
    forall i: CallId | i in t.calls ensures ValidSpec(t.calls[i].spec) && OwnsReceipt(t, i) && OutcomeTrue(t, i) {
      assert ValidSpec(s.calls[i].spec) && OwnsReceipt(s, i) && OutcomeTrue(s, i);
    }
    forall key: Key | key in t.receipts ensures ReceiptSound(t, key) {
      assert ReceiptSound(s, key);
    }
    forall k | 0 <= k < |t.starts| ensures StartBacked(t, t.starts[k]) {
      assert StartBacked(s, s.starts[k]);
    }
  }

  lemma LookKeepsInv(s: State, id: CallId)
    requires Inv(s) && id in s.calls
    ensures Inv(DoLook(s, id))
  {
    var call := s.calls[id];
    if call.pc.Looking? {
      if call.key in s.receipts {
        assert ReceiptSound(s, call.key);
        SetPcKeepsInv(s, id, Ended(Resolve(s.receipts[call.key], call)));
      } else {
        SetPcKeepsInv(s, id, if call.spec.requiresApproval && call.approval.None? then Requesting else Starting);
      }
    }
  }

  /** Approvals only gain rows, or change in ways no receipt looks at. */
  lemma ApprovalsChangeKeepsInv(s: State, approvals: seq<Approval>)
    requires Inv(s) && |s.approvals| <= |approvals|
    requires forall i :: 0 <= i < |s.approvals| ==> s.approvals[i].consumedAt.Some? ==> approvals[i] == s.approvals[i]
    requires forall i :: 0 <= i < |approvals| ==> ApprovalSound(approvals[i])
    ensures Inv(s.(approvals := approvals))
  {
    var t := s.(approvals := approvals);
    forall i: CallId | i in t.calls ensures ValidSpec(t.calls[i].spec) && OwnsReceipt(t, i) && OutcomeTrue(t, i) {
      assert ValidSpec(s.calls[i].spec) && OwnsReceipt(s, i) && OutcomeTrue(s, i);
    }
    forall key: Key | key in t.receipts ensures ReceiptSound(t, key) {
      assert ReceiptSound(s, key);
    }
    forall k | 0 <= k < |t.starts| ensures StartBacked(t, t.starts[k]) {
      assert StartBacked(s, s.starts[k]);
    }
  }

  lemma RequestKeepsInv(s: State, id: CallId, now: Time, ttl: Time)
    requires Inv(s) && id in s.calls
    ensures Inv(DoRequest(s, id, now, ttl))
  {
    var call := s.calls[id];
    if call.pc.Requesting? {
      if call.run !in s.runs {
        SetPcKeepsInv(s, id, Ended(Conflict));
      } else {
        var i := Newest(s.approvals, call, now);
        if i >= 0 {
          SetPcKeepsInv(s, id, Ended(AwaitingApproval(i)));
        } else {
          var request := Approval(call.run, call.spec.name, call.sha, call.who, Pending, None, now + ttl, None);
          ApprovalsChangeKeepsInv(s, s.approvals + [request]);
          SetPcKeepsInv(s.(approvals := s.approvals + [request]), id, Ended(AwaitingApproval(|s.approvals|)));
        }
      }
    }
  }

  lemma DecideKeepsInv(s: State, now: Time, a: ApprovalId, who: PrincipalId, approve: bool)
    requires Inv(s)
    ensures Inv(DoDecide(s, now, a, who, approve))
  {
    var t := DoDecide(s, now, a, who, approve);
    if t != s {
      assert ApprovalSound(s.approvals[a]);
      ApprovalsChangeKeepsInv(s, t.approvals);
    }
  }

  /** A receipt appears under a fresh key, with an approval nobody consumed before. */
  lemma BeginKeepsInv(s: State, id: CallId, now: Time)
    requires Inv(s) && id in s.calls
    ensures Inv(DoBegin(s, id, now))
  {
    var call := s.calls[id];
    var t := DoBegin(s, id, now);
    if call.pc.Starting? {
      if call.key in s.receipts {
        assert ReceiptSound(s, call.key);
        SetPcKeepsInv(s, id, Ended(Resolve(s.receipts[call.key], call)));
      } else if t.receipts == s.receipts {
        assert call.key in s.receipts[call.key := Receipt(call.run, call.approval, call.spec, call.sha, Started, None, id, false)];
        SetPcKeepsInv(s, id, t.calls[id].pc);
      } else {
        InsertKeepsInv(s, id, now);
      }
    }
  }

  predicate Inserts(s: State, id: CallId, now: Time) {
    && id in s.calls && s.calls[id].pc.Starting? && s.calls[id].run in s.runs && s.calls[id].key !in s.receipts
    && (s.calls[id].spec.requiresApproval ==>
          && s.calls[id].approval.Some? && s.calls[id].approval.value < |s.approvals|
          && Consumable(s.approvals[s.calls[id].approval.value], s.calls[id], now))
  }

  lemma InsertKeepsReceipts(s: State, id: CallId, now: Time)
    requires Inv(s) && Inserts(s, id, now)
    ensures forall key: Key :: key in DoBegin(s, id, now).receipts ==> ReceiptSound(DoBegin(s, id, now), key)
    ensures ApprovalsNotShared(DoBegin(s, id, now))
  {
    var call, t := s.calls[id], DoBegin(s, id, now);
    forall key: Key | key in t.receipts ensures ReceiptSound(t, key) {
      if key == call.key {
        assert ValidSpec(call.spec);
        if call.spec.requiresApproval {
          assert ApprovalSound(s.approvals[call.approval.value]);
        }
      } else {
        assert ReceiptSound(s, key);
      }
    }
    forall key: Key | key in s.receipts && call.spec.requiresApproval && s.receipts[key].spec.requiresApproval
      ensures s.receipts[key].approval != call.approval
    {
      assert ReceiptSound(s, key);
    }
  }

  lemma InsertKeepsInv(s: State, id: CallId, now: Time)
    requires Inv(s) && Inserts(s, id, now)
    ensures Inv(DoBegin(s, id, now))
  {
    var call, t := s.calls[id], DoBegin(s, id, now);
    InsertKeepsReceipts(s, id, now);
    forall k | 0 <= k < |s.starts| ensures StartBacked(t, t.starts[k]) && t.starts[k].key != call.key {
      assert StartBacked(s, s.starts[k]);
    }
    forall i: CallId | i in t.calls ensures ValidSpec(t.calls[i].spec) && OwnsReceipt(t, i) && OutcomeTrue(t, i) {
      assert ValidSpec(s.calls[i].spec) && OwnsReceipt(s, i) && OutcomeTrue(s, i);
    }
    forall i | 0 <= i < |t.approvals| ensures ApprovalSound(t.approvals[i]) {
      assert ApprovalSound(s.approvals[i]);
    }
  }

  lemma LaunchKeepsInv(s: State, id: CallId)
    requires Inv(s) && id in s.calls
    ensures Inv(DoLaunch(s, id))
  {
    var call, t := s.calls[id], DoLaunch(s, id);
    if call.pc.Ready? {
      assert OwnsReceipt(s, id);
      forall k | 0 <= k < |t.starts| ensures StartBacked(t, t.starts[k]) {
        if k < |s.starts| {
          assert StartBacked(s, s.starts[k]);
        }
      }
      forall i: CallId | i in t.calls ensures ValidSpec(t.calls[i].spec) && OwnsReceipt(t, i) && OutcomeTrue(t, i) {
        assert ValidSpec(s.calls[i].spec) && OwnsReceipt(s, i) && OutcomeTrue(s, i);
      }
      forall key: Key | key in t.receipts ensures ReceiptSound(t, key) {
        assert ReceiptSound(s, key);
      }
    }
  }

  /** The owner rewrites its own started receipt. */
  lemma RewriteKeepsInv(s: State, id: CallId, row: Receipt, pc: Pc)
    requires Inv(s) && id in s.calls && Executing(s.calls[id].pc) && !s.calls[id].pc.Ready?
    requires OwnsReceipt(s, id)
    requires var was := s.receipts[s.calls[id].key];
             row == was.(status := row.status, result := row.result, returned := row.returned)
    requires var t := SetPc(s.(receipts := s.receipts[s.calls[id].key := row]), id, pc);
             ReceiptSound(t, s.calls[id].key) && OwnsReceipt(t, id) && OutcomeTrue(t, id)
    ensures Inv(SetPc(s.(receipts := s.receipts[s.calls[id].key := row]), id, pc))
  {
    var mine := s.calls[id].key;
    var t := SetPc(s.(receipts := s.receipts[mine := row]), id, pc);
    forall i: CallId | i in t.calls ensures ValidSpec(t.calls[i].spec) && OwnsReceipt(t, i) && OutcomeTrue(t, i) {
      assert ValidSpec(s.calls[i].spec) && OwnsReceipt(s, i) && OutcomeTrue(s, i);
    }
    forall key: Key | key in t.receipts ensures ReceiptSound(t, key) {
      assert ReceiptSound(s, key);
    }
    forall k | 0 <= k < |t.starts| ensures StartBacked(t, t.starts[k]) {
      assert StartBacked(s, s.starts[k]);
    }
  }

  lemma ReturnKeepsInv(s: State, id: CallId, value: Value, fits: bool)
    requires Inv(s) && id in s.calls
    ensures Inv(DoReturn(s, id, value, fits))
  {
    var call := s.calls[id];
    if call.pc.Running? && call.key in s.receipts {
      assert OwnsReceipt(s, id) && ReceiptSound(s, call.key);
      RewriteKeepsInv(s, id, s.receipts[call.key].(returned := true), Returned(value, fits));
    }
  }

  lemma CommitKeepsInv(s: State, id: CallId)
    requires Inv(s) && id in s.calls
    ensures Inv(DoCommit(s, id))
  {
    var call, t := s.calls[id], DoCommit(s, id);
    if (call.pc.Returned? || call.pc.Raised?) && call.key in s.receipts {
      assert OwnsReceipt(s, id) && ReceiptSound(s, call.key);
      RewriteKeepsInv(s, id, t.receipts[call.key], t.calls[id].pc);
    }
  }

  lemma InvokeKeepsInv(s: State, e: Event)
    requires Inv(s) && e.Invoke?
    ensures Inv(DoInvoke(s, e))
  {
    var t := DoInvoke(s, e);
    forall i: CallId | i in t.calls ensures ValidSpec(t.calls[i].spec) && OwnsReceipt(t, i) && OutcomeTrue(t, i) {
      if i in s.calls {
        assert ValidSpec(s.calls[i].spec) && OwnsReceipt(s, i) && OutcomeTrue(s, i);
      }
    }
    forall key: Key | key in t.receipts ensures ReceiptSound(t, key) {
      assert ReceiptSound(s, key);
    }
    forall k | 0 <= k < |t.starts| ensures StartBacked(t, t.starts[k]) {
      assert StartBacked(s, s.starts[k]);
    }
  }

  lemma PerformKeepsInv(s: State, now: Time, id: CallId, move: Move)
    requires Inv(s) && id in s.calls
    ensures Inv(Perform(s, now, id, move))
  {
    match move
    case Look => LookKeepsInv(s, id);
    case Request(ttl) => RequestKeepsInv(s, id, now, ttl);
    case Begin => BeginKeepsInv(s, id, now);
    case Launch => LaunchKeepsInv(s, id);
    case Return(value, fits) => ReturnKeepsInv(s, id, value, fits);
    case Raise =>
      if s.calls[id].pc.Ready? || s.calls[id].pc.Running? {
        assert OwnsReceipt(s, id);
        SetPcKeepsInv(s, id, Raised);
      }
    case Commit => CommitKeepsInv(s, id);
    case Lose(outcome) =>
      if DoLose(s, id, outcome) != s {
        SetPcKeepsInv(s, id, Ended(outcome));
      }
  }

  lemma ClockKeepsInv(s: State, now: Time)
    requires Inv(s)
    ensures Inv(s.(clock := now))
  {
    var t := s.(clock := now);
    forall i: CallId | i in t.calls ensures ValidSpec(t.calls[i].spec) && OwnsReceipt(t, i) && OutcomeTrue(t, i) {
      assert ValidSpec(s.calls[i].spec) && OwnsReceipt(s, i) && OutcomeTrue(s, i);
    }
    forall key: Key | key in t.receipts ensures ReceiptSound(t, key) {
      assert ReceiptSound(s, key);
    }
    forall k | 0 <= k < |t.starts| ensures StartBacked(t, t.starts[k]) {
      assert StartBacked(s, s.starts[k]);
    }
  }

  lemma StepKeepsInv(s: State, e: Event)
    requires Inv(s)
    ensures Inv(Step(s, e))
  {
    if e.now >= s.clock {
      ClockKeepsInv(s, e.now);
      var t := s.(clock := e.now);
      match e
      case Invoke(_, _, _, _, _, _, _, _) => InvokeKeepsInv(t, e);
      case Act(now, id, move) => if id in t.calls { PerformKeepsInv(t, now, id, move); }
      case Decide(now, a, who, approve) => DecideKeepsInv(t, now, a, who, approve);
    }
  }

  lemma {:induction false} PlayKeepsInv(s: State, es: seq<Event>)
    requires Inv(s)
    ensures Inv(Play(s, es))
    decreases |es|
  {
    if es != [] {
      StepKeepsInv(s, es[0]);
      PlayKeepsInv(Step(s, es[0]), es[1..]);
    }
  }

  // ---------------------------------------------------------------- what it guarantees

  /** Over any interleaving and any crashes, one idempotency key starts at most one handler. */
  lemma HandlerStartsOncePerKey(s: State, es: seq<Event>, k: nat, m: nat)
    requires Initial(s) && k < m < |Play(s, es).starts|
    ensures Play(s, es).starts[k].key != Play(s, es).starts[m].key
  {
    PlayKeepsInv(s, es);
  }

  /**
    Every start of a gated tool, and so of every write tool, has consumed an approval of its
    own: approved by somebody other than the requester, unexpired when consumed, for the same
    run, tool and argument hash, and behind no other start.
   */
  lemma EveryGatedStartWasApproved(s: State, es: seq<Event>, k: nat)
    requires Initial(s) && k < |Play(s, es).starts|
    requires var spec := Play(s, es).starts[k].spec; spec.requiresApproval || spec.write
    ensures var t := Play(s, es);
            && t.starts[k].key in t.receipts && ProperlyApproved(t, t.receipts[t.starts[k].key])
            && t.receipts[t.starts[k].key].approval == t.starts[k].approval
    ensures forall m :: 0 <= m < |Play(s, es).starts| && m != k && Play(s, es).starts[m].spec.requiresApproval ==>
              Play(s, es).starts[m].approval != Play(s, es).starts[k].approval
  {
    PlayKeepsInv(s, es);
    var t := Play(s, es);
    assert StartBacked(t, t.starts[k]) && ReceiptSound(t, t.starts[k].key);
    forall m | 0 <= m < |t.starts| && m != k && t.starts[m].spec.requiresApproval
      ensures t.starts[m].approval != t.starts[k].approval
    {
      assert StartBacked(t, t.starts[m]);
      assert t.starts[m].key != t.starts[k].key;
    }
  }

  /** A receipt that is no longer `started` never changes again. */
  lemma {:induction false} FinishedReceiptsAreFinal(s: State, es: seq<Event>, key: Key)
    requires Inv(s) && key in s.receipts && !s.receipts[key].status.Started?
    ensures key in Play(s, es).receipts && Play(s, es).receipts[key] == s.receipts[key]
    decreases |es|
  {
    if es != [] {
      StepKeepsInv(s, es[0]);
      StepKeepsFinished(s, es[0], key);
      FinishedReceiptsAreFinal(Step(s, es[0]), es[1..], key);
    }
  }

  lemma StepKeepsFinished(s: State, e: Event, key: Key)
    requires Inv(s) && key in s.receipts && !s.receipts[key].status.Started?
    ensures key in Step(s, e).receipts && Step(s, e).receipts[key] == s.receipts[key]
  {
    if e.Act? && e.id in s.calls {
      assert OwnsReceipt(s, e.id);
    }
  }

  /**
    A caller told "succeeded", fresh or replayed, holds the result stored under its own tool
    and argument hash, and will be told the same again however often it asks.
   */
  lemma AnswersComeFromTheReceipt(s: State, es: seq<Event>, fs: seq<Event>, id: CallId)
    requires Initial(s) && id in Play(s, es).calls && Play(s, es).calls[id].pc.Ended?
    requires var o := Play(s, es).calls[id].pc.outcome; o.Success? || o.Replayed?
    ensures var call := Play(s, es).calls[id];
            ReceiptShows(Play(Play(s, es), fs), call, call.pc.outcome.value)
  {
    PlayKeepsInv(s, es);
    var t := Play(s, es);
    assert OutcomeTrue(t, id);
    FinishedReceiptsAreFinal(t, fs, t.calls[id].key);
  }

  /** The owner of the key's receipt commits a result that came back but is too large to keep. */
  predicate CommitsOversized(s: State, e: Event, key: Key) {
    e.Act? && e.move.Commit? && s.clock <= e.now && e.id in s.calls && HasOversized(s, e.id, key)
  }

  predicate HasOversized(s: State, id: CallId, key: Key)
    requires id in s.calls
  {
    var call := s.calls[id];
    call.key == key && key in s.receipts && call.pc.Returned? && !call.pc.fits
  }

  /** Somewhere in the trace. */
  predicate OversizedCommit(s: State, es: seq<Event>, key: Key)
    decreases |es|
  {
    es != [] && (CommitsOversized(s, es[0], key) || OversizedCommit(Step(s, es[0]), es[1..], key))
  }

  predicate IsFailed(s: State, key: Key) {
    key in s.receipts && s.receipts[key].status.Failed?
  }

  lemma PerformFailsWriteIff(s: State, now: Time, id: CallId, move: Move, key: Key)
    requires id in s.calls && OwnsReceipt(s, id)
    ensures var t := Perform(s, now, id, move);
            && (key in s.receipts ==> key in t.receipts && t.receipts[key].spec == s.receipts[key].spec)
            && (key in t.receipts && t.receipts[key].spec.write ==>
                  IsFailed(t, key) == (IsFailed(s, key) || (move.Commit? && HasOversized(s, id, key))))
  {
  }

  lemma StepFailsWriteIff(s: State, e: Event, key: Key)
    requires Inv(s)
    ensures key in s.receipts ==> key in Step(s, e).receipts && Step(s, e).receipts[key].spec == s.receipts[key].spec
    ensures key in Step(s, e).receipts && Step(s, e).receipts[key].spec.write ==>
              (IsFailed(Step(s, e), key) <==> IsFailed(s, key) || CommitsOversized(s, e, key))
  {
    if e.Act? && e.id in s.calls {
      assert OwnsReceipt(s, e.id);
      hide Perform, Inv, ReceiptSound, OutcomeTrue;
      PerformFailsWriteIff(s.(clock := e.now), e.now, e.id, e.move, key);
    }
  }

  lemma {:induction false} ReceiptsStay(s: State, es: seq<Event>, key: Key)
    requires Inv(s) && key in s.receipts
    ensures key in Play(s, es).receipts && Play(s, es).receipts[key].spec == s.receipts[key].spec
    decreases |es|
  {
    if es != [] {
      StepKeepsInv(s, es[0]);
      StepFailsWriteIff(s, es[0], key);
      ReceiptsStay(Step(s, es[0]), es[1..], key);
    }
  }

  lemma {:induction false} FailedWriteFrom(s: State, es: seq<Event>, key: Key)
    requires Inv(s) && key in Play(s, es).receipts && Play(s, es).receipts[key].spec.write
    ensures IsFailed(Play(s, es), key) <==> IsFailed(s, key) || OversizedCommit(s, es, key)
    decreases |es|
  {
    if es != [] {
      var t := Step(s, es[0]);
      StepKeepsInv(s, es[0]);
      StepFailsWriteIff(s, es[0], key);
      if key in t.receipts {
        ReceiptsStay(t, es[1..], key);
      }
      hide Step, Inv;
      FailedWriteFrom(t, es[1..], key);
    }
  }

  /**
    Over every trace, a write receipt is `failed` if and only if its owner committed a result
    that had come back but was too large to keep. The effect has happened then; a write whose
    fate is unknown is never called failed.
   */
  lemma FailedWriteIffOversized(s: State, es: seq<Event>, key: Key)
    requires Initial(s) && key in Play(s, es).receipts && Play(s, es).receipts[key].spec.write
    ensures Play(s, es).receipts[key].status.Failed? <==> OversizedCommit(s, es, key)
    ensures Play(s, es).receipts[key].status.Failed? ==> Play(s, es).receipts[key].returned
  {
    FailedWriteFrom(s, es, key);
    PlayKeepsInv(s, es);
    assert ReceiptSound(Play(s, es), key);
  }

  const WRITER := Spec("writer", true, true)

  /** A run of it: requested, approved by somebody else, executed, and the answer does not fit. */
  lemma OversizedWriteFails() returns (s: State, es: seq<Event>)
    ensures Initial(s) && "k" in Play(s, es).receipts && Play(s, es).receipts["k"].spec.write
    ensures Play(s, es).receipts["k"].status.Failed? && |Play(s, es).starts| == 1
  {
    s := State(0.0, {0}, [], map[], map[], []);
    var asked := [Event.Invoke(0.0, 0, WRITER, 0, "k", "h", None, 1), Act(0.0, 0, Look), Act(0.0, 0, Request(10.0)),
                  Decide(1.0, 0, 2, true)];
    var done := [Event.Invoke(1.0, 1, WRITER, 0, "k", "h", Some(0), 1), Act(1.0, 1, Look), Act(1.0, 1, Begin),
                 Act(1.0, 1, Launch), Act(1.0, 1, Return("v", false)), Act(1.0, 1, Commit)];
    es := asked + done;
    PlayConcat(s, asked, done);
    var t := Granted(s, asked);
    Executed(t, done);
  }

  lemma Granted(s: State, es: seq<Event>) returns (t: State)
    requires s == State(0.0, {0}, [], map[], map[], [])
    requires es == [Event.Invoke(0.0, 0, WRITER, 0, "k", "h", None, 1), Act(0.0, 0, Look), Act(0.0, 0, Request(10.0)), Decide(1.0, 0, 2, true)]
    ensures t == Play(s, es) && t.clock == 1.0 && t.runs == {0} && t.receipts == map[] && t.starts == []
    ensures t.approvals == [Approval(0, "writer", "h", 1, Approved, Some(2), 10.0, None)] && t.calls.Keys == {0}
  {
    var s1 := Step(s, es[0]);
    var s2 := Step(s1, es[1]);
    assert s2.calls[0].pc.Requesting?;
    var s3 := Step(s2, es[2]);
    assert s3.approvals == [Approval(0, "writer", "h", 1, Pending, None, 10.0, None)];
    t := Step(s3, es[3]);
    PlayThree(s, es[0], es[1], es[2]);
    PlayConcat(s, es[..3], [es[3]]);
    PlayOne(s3, es[3]);
    assert es[..3] == [es[0], es[1], es[2]] && es[..3] + [es[3]] == es;
  }

  lemma Executed(s: State, es: seq<Event>)
    requires s.clock == 1.0 && s.runs == {0} && s.receipts == map[] && s.starts == [] && s.calls.Keys == {0}
    requires s.approvals == [Approval(0, "writer", "h", 1, Approved, Some(2), 10.0, None)]
    requires es == [Event.Invoke(1.0, 1, WRITER, 0, "k", "h", Some(0), 1), Act(1.0, 1, Look), Act(1.0, 1, Begin),
                    Act(1.0, 1, Launch), Act(1.0, 1, Return("v", false)), Act(1.0, 1, Commit)]
    ensures var t := Play(s, es); "k" in t.receipts && t.receipts["k"].spec == WRITER && t.receipts["k"].status.Failed? && |t.starts| == 1
  {
    var s1 := Step(s, es[0]);
    var s2 := Step(s1, es[1]);
    assert s2.calls[1].pc.Starting?;
    var s3 := Step(s2, es[2]);
    assert s3.calls[1].pc.Ready? && "k" in s3.receipts;
    var s4 := Step(s3, es[3]);
    var s5 := Step(s4, es[4]);
    var s6 := Step(s5, es[5]);
    assert s6.receipts["k"].status.Failed?;
    PlayThree(s, es[0], es[1], es[2]);
    PlayThree(s3, es[3], es[4], es[5]);
    PlayConcat(s, [es[0], es[1], es[2]], [es[3], es[4], es[5]]);
    assert [es[0], es[1], es[2]] + [es[3], es[4], es[5]] == es;
  }

  // ---------------------------------------------------------------- one invocation, start to end

  /** What the handler does once it is entered. */
  datatype Handler = Returns(value: Value, fits: bool) | Raises | Dies

  /** How a decision is answered. */
  datatype Ruling = Decided | NotFound | Final | Denied | Lapsed

  /** The tables, and the code of invoke running on them without interruption. */
  class ToolStore {
    var clock: Time
    var runs: set<RunId>
    var approvals: seq<Approval>
    var receipts: map<Key, Receipt>
    ghost var calls: map<CallId, Call>
    ghost var starts: seq<Start>

    ghost function Model(): State
      reads this
    {
      State(clock, runs, approvals, receipts, calls, starts)
    }

    ghost predicate Valid()
      reads this
    {
      Inv(Model())
    }

    constructor (now: Time, runs: set<RunId>)
      ensures Valid() && Initial(Model()) && this.runs == runs && clock == now
    {
      clock, this.runs, approvals, receipts := now, runs, [], map[];
      calls, starts := map[], [];
    }

    /** now(), as the next transaction reads it. */
    method Now() returns (now: Time)
      modifies this`clock
      ensures now == clock && clock >= old(clock)
    {
      var elapsed: Time :| elapsed >= 0.0;
      clock := clock + elapsed;
      now := clock;
    }

    /** The invocation's own position moves with a transaction. */
    ghost method Follow(id: CallId, move: Move, before: State)
      requires Inv(before) && id in before.calls
      requires var t := Step(before, Act(clock, id, move));
               t == State(clock, runs, approvals, receipts, t.calls, t.starts)
      modifies this`calls, this`starts
      ensures Valid() && Model() == Step(before, Act(clock, id, move))
    {
      StepKeepsInv(before, Act(clock, id, move));
      var t := Step(before, Act(clock, id, move));
      calls, starts := t.calls, t.starts;
    }

    /** decide (approvals.py): decisions are final, nobody decides their own request, and a lapsed one is refused. */
    method Decide(a: ApprovalId, who: PrincipalId, approve: bool) returns (r: Ruling)
      requires Valid()
      modifies this`clock, this`approvals
      ensures Valid() && clock >= old(clock) && Model() == Step(old(Model()), Event.Decide(clock, a, who, approve))
      ensures r.NotFound? <==> a >= |old(approvals)|
      ensures r.Final? <==> a < |old(approvals)| && !old(approvals)[a].verdict.Pending?
      ensures r.Denied? <==> a < |old(approvals)| && old(approvals)[a].verdict.Pending? && who == old(approvals)[a].requestedBy
      ensures r.Decided? ==> old(approvals)[a].expiresAt > clock && approvals[a].decidedBy == Some(who)
                             && approvals[a].verdict == (if approve then Approved else Rejected)
      ensures r.Lapsed? ==> old(approvals)[a].expiresAt <= clock
      ensures !r.Decided? ==> approvals == old(approvals)
    {
      ghost var before := Model();
      var now := Now();
      StepKeepsInv(before, Event.Decide(now, a, who, approve));
      if a >= |approvals| {
        return NotFound;
      }
      var row := approvals[a];
      if !row.verdict.Pending? {
        return Final;
      }
      if who == row.requestedBy {
        return Denied;
      }
      if row.expiresAt <= now {
        return Lapsed;
      }
      approvals := approvals[a := row.(verdict := if approve then Approved else Rejected, decidedBy := Some(who))];
      r := Decided;
    }

    /** _existing and _resolve_existing. */
    method Existing(id: CallId, call: Call) returns (found: Option<Outcome>)
      requires Valid() && id in calls && calls[id] == call && call.pc.Looking?
      modifies this`clock, this`calls, this`starts
      ensures Valid() && clock >= old(clock) && Model() == Step(old(Model()), Act(clock, id, Look))
      ensures id in calls && starts == old(starts)
      ensures found.Some? <==> call.key in receipts
      ensures found.Some? ==> !found.value.Success?
      ensures found.Some? ==> calls[id] == call.(pc := Ended(found.value))
      ensures found.None? ==> calls[id] == call.(pc := if call.spec.requiresApproval && call.approval.None? then Requesting else Starting)
    {
      ghost var before := Model();
      var now := Now();
      found := if call.key in receipts then Some(Resolve(receipts[call.key], call)) else None;
      Follow(id, Look, before);
    }

    /** _request_approval: reuse the newest open request for the same call, or insert one. */
    method RequestApproval(id: CallId, call: Call, ttl: Time) returns (o: Outcome)
      requires Valid() && id in calls && calls[id] == call && call.pc.Requesting?
      modifies this`clock, this`approvals, this`calls, this`starts
      ensures Valid() && clock >= old(clock) && Model() == Step(old(Model()), Act(clock, id, Request(ttl)))
      ensures id in calls && calls[id].pc == Ended(o) && (o.Conflict? || o.AwaitingApproval?) && starts == old(starts)
    {
      ghost var before := Model();
      var now := Now();
      if call.run !in runs {
        o := Conflict;
      } else {
        var existing := Newest(approvals, call, now);
        if existing >= 0 {
          o := AwaitingApproval(existing);
        } else {
          o := AwaitingApproval(|approvals|);
          approvals := approvals + [Approval(call.run, call.spec.name, call.sha, call.who, Pending, None, now + ttl, None)];
        }
      }
      Follow(id, Request(ttl), before);
    }

    /** _start_execution: INSERT … ON CONFLICT DO NOTHING, then consume the approval, or roll both back. */
    method StartExecution(id: CallId, call: Call) returns (refused: Option<Outcome>)
      requires Valid() && id in calls && calls[id] == call && call.pc.Starting?
      modifies this`clock, this`receipts, this`approvals, this`calls, this`starts
      ensures Valid() && clock >= old(clock) && Model() == Step(old(Model()), Act(clock, id, Begin))
      ensures id in calls && starts == old(starts)
      ensures calls[id] == call.(pc := if refused.Some? then Ended(refused.value) else Ready)
      ensures refused.Some? ==> !refused.value.Success?
      ensures refused.None? ==> call.key !in old(receipts) && call.key in receipts
      ensures refused.Some? ==> receipts == old(receipts) && approvals == old(approvals)
    {
      ghost var before := Model();
      var now := Now();
      if call.key in receipts {
        refused := Some(Resolve(receipts[call.key], call));
      } else if call.run !in runs {
        refused := Some(Conflict);
      } else {
        var saved := receipts;
        receipts := receipts[call.key := Receipt(call.run, call.approval, call.spec, call.sha, Started, None, id, false)];
        refused := None;
        if call.spec.requiresApproval {
          if call.approval.Some? && call.approval.value < |approvals| && Consumable(approvals[call.approval.value], call, now) {
            var a := call.approval.value;
            approvals := approvals[a := approvals[a].(consumedAt := Some(now))];
          } else {
            receipts := saved;
            refused := Some(ApprovalInvalid);
          }
        }
      }
      Follow(id, Begin, before);
    }

    /** The UPDATE that closes the receipt, by its owner. */
    method Close(id: CallId, call: Call, status: ReceiptStatus, result: Option<Value>) returns (updated: bool)
      requires Valid() && id in calls && calls[id] == call && (call.pc.Returned? || call.pc.Raised?)
      requires call.pc.Returned? ==> status == (if call.pc.fits then Succeeded else Failed)
      requires call.pc.Returned? ==> result == (if call.pc.fits then Some(call.pc.value) else None)
      requires call.pc.Raised? ==> status == FailureStatus(call.spec) && result == None
      modifies this`clock, this`receipts, this`calls, this`starts
      ensures Valid() && clock >= old(clock) && Model() == Step(old(Model()), Act(clock, id, Commit))
      ensures updated && call.key in receipts && receipts[call.key].status == status
      ensures id in calls && starts == old(starts)
      ensures calls[id].pc == Ended(if status.Succeeded? && result.Some? then Success(result.value) else Unavailable)
    {
      ghost var before := Model();
      assert OwnsReceipt(before, id);
      var now := Now();
      updated := receipts[call.key].status.Started?;
      if updated {
        receipts := receipts[call.key := receipts[call.key].(status := status, result := result)];
      }
      Follow(id, Commit, before);
    }

    /** future = executor.submit(handler): from here on the outside world may see an effect. */
    ghost method Enter(id: CallId, call: Call)
      requires Valid() && id in calls && calls[id] == call && call.pc.Ready?
      modifies this`calls, this`starts
      ensures Valid() && Model() == Step(old(Model()), Act(clock, id, Launch))
      ensures id in calls && calls[id] == call.(pc := Running)
      ensures starts == old(starts) + [Start(call.key, call.spec, call.run, call.sha, call.approval)]
    {
      Follow(id, Launch, Model());
    }

    /** The handler came back. */
    method ComeBack(id: CallId, call: Call, value: Value, fits: bool)
      requires Valid() && id in calls && calls[id] == call && call.pc.Running?
      modifies this`receipts, this`calls, this`starts
      ensures Valid() && Model() == Step(old(Model()), Act(clock, id, Return(value, fits)))
      ensures id in calls && calls[id] == call.(pc := Pc.Returned(value, fits)) && starts == old(starts)
    {
      ghost var before := Model();
      assert OwnsReceipt(before, id);
      receipts := receipts[call.key := receipts[call.key].(returned := true)];
      Follow(id, Return(value, fits), before);
    }

    /** The handler raised or timed out, or the process died. */
    ghost method Break(id: CallId, call: Call, move: Move)
      requires Valid() && id in calls && calls[id] == call && call.pc.Running?
      requires move == Raise || move == Lose(Died)
      modifies this`calls, this`starts
      ensures Valid() && Model() == Step(old(Model()), Act(clock, id, move))
      ensures id in calls && calls[id] == call.(pc := if move.Raise? then Raised else Ended(Died)) && starts == old(starts)
    {
      Follow(id, move, Model());
    }

    /** The handler call itself, and everything after it. */
    method Execute(id: CallId, call: Call, handler: Handler) returns (o: Outcome, ghost es: seq<Event>)
      requires Valid() && id in calls && calls[id] == call && call.pc.Ready?
      modifies this`clock, this`receipts, this`calls, this`starts
      ensures Valid() && clock >= old(clock) && Model() == Play(old(Model()), es)
      ensures id in calls && calls[id].pc == Ended(o)
      ensures |starts| == |old(starts)| + 1
      ensures o.Success? <==> handler.Returns? && handler.fits
      ensures o.Success? ==> o.value == handler.value
    {
      hide Step, Play, Inv;
      ghost var before := Model();
      Enter(id, call);
      ghost var e0 := Act(clock, id, Launch);
      match handler
      case Dies =>
        Break(id, call.(pc := Running), Lose(Died));
        o, es := Died, [e0, Act(clock, id, Lose(Died))];
        PlayTwo(before, es[0], es[1]);
      case Raises =>
        Break(id, call.(pc := Running), Raise);
        ghost var e1 := Act(clock, id, Raise);
        var updated := Close(id, call.(pc := Raised), FailureStatus(call.spec), None);
        o, es := Unavailable, [e0, e1, Act(clock, id, Commit)];
        PlayThree(before, es[0], es[1], es[2]);
      case Returns(value, fits) =>
        ComeBack(id, call.(pc := Running), value, fits);
        ghost var e1 := Act(clock, id, Return(value, fits));
        var updated := Close(id, call.(pc := Pc.Returned(value, fits)),
                             if fits then Succeeded else Failed, if fits then Some(value) else None);
        o, es := if fits then Success(value) else Unavailable, [e0, e1, Act(clock, id, Commit)];
        PlayThree(before, es[0], es[1], es[2]);
    }

    /** An invocation arrives. */
    ghost method Arrive(id: CallId, call: Call)
      requires Valid() && ValidSpec(call.spec) && id !in calls && call.pc.Looking?
      modifies this`calls
      ensures Valid() && id in calls && calls[id] == call
      ensures Model() == Step(old(Model()), Event.Invoke(clock, id, call.spec, call.run, call.key, call.sha, call.approval, call.who))
    {
      StepKeepsInv(Model(), Event.Invoke(clock, id, call.spec, call.run, call.key, call.sha, call.approval, call.who));
      calls := calls[id := call];
    }

    /** invoke, uninterrupted: one trace of the protocol, answered truthfully. */
    method Invoke(id: CallId, spec: Spec, run: RunId, key: Key, sha: Digest, approval: Option<ApprovalId>,
                  who: PrincipalId, ttl: Time, handler: Handler) returns (o: Outcome, ghost es: seq<Event>)
      requires Valid() && ValidSpec(spec) && id !in calls
      modifies this
      ensures Valid() && Model() == Play(old(Model()), es)
      ensures id in calls && calls[id].pc == Ended(o)
      ensures |starts| <= |old(starts)| + 1
      ensures key in old(receipts) ==> starts == old(starts) && receipts == old(receipts)
      ensures o.Success? ==> handler.Returns? && o.value == handler.value && |starts| == |old(starts)| + 1
    {
      hide Step, Play, Inv;
      ghost var s0 := Model();
      ghost var e0 := Event.Invoke(clock, id, spec, run, key, sha, approval, who);
      var call := Call(spec, run, key, sha, approval, who, Looking);
      Arrive(id, call);
      var found := Existing(id, call);
      ghost var e1, s2 := Act(clock, id, Look), Model();
      PlayTwo(s0, e0, e1);
      es := [e0, e1];
      if found.Some? {
        o := found.value;
        return;
      }
      if spec.requiresApproval && approval.None? {
        o := RequestApproval(id, call.(pc := Requesting), ttl);
        PlayConcat(s0, es, [Act(clock, id, Request(ttl))]);
        PlayOne(s2, Act(clock, id, Request(ttl)));
        es := es + [Act(clock, id, Request(ttl))];
        return;
      }
      var refused := StartExecution(id, call.(pc := Starting));
      PlayConcat(s0, es, [Act(clock, id, Begin)]);
      PlayOne(s2, Act(clock, id, Begin));
      es := es + [Act(clock, id, Begin)];
      if refused.Some? {
        o := refused.value;
        return;
      }
      ghost var rest;
      o, rest := Execute(id, call.(pc := Ready), handler);
      PlayConcat(s0, es, rest);
      es := es + rest;
    }
  }

  lemma PlayOne(s: State, e: Event)
    ensures Play(s, [e]) == Step(s, e)
  {
    assert [e][1..] == [];
  }

  lemma PlayTwo(s: State, e: Event, f: Event)
    ensures Play(s, [e, f]) == Step(Step(s, e), f)
  {
    hide Step;
    assert [e, f][1..] == [f];
    PlayOne(Step(s, e), f);
  }

  lemma PlayThree(s: State, e: Event, f: Event, g: Event)
    ensures Play(s, [e, f, g]) == Step(Step(Step(s, e), f), g)
  {
    hide Step;
    assert [e, f, g][1..] == [f, g];
    PlayTwo(Step(s, e), f, g);
  }

  lemma {:induction false} PlayConcat(s: State, es: seq<Event>, fs: seq<Event>)
    ensures Play(s, es + fs) == Play(Play(s, es), fs)
    decreases |es|
  {
    hide Step;
    if es == [] {
      assert es + fs == fs;
    } else {
      assert (es + fs)[1..] == es[1..] + fs;
      PlayConcat(Step(s, es[0]), es[1..], fs);
    }
  }
}
