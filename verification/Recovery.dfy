/** The recovery coordinator: wait, probe the target, mark as committed or as absent, hand off, repair the history. */
module Recovery {
  import opened Prelude
  import opened Json
  import opened Models
  import opened Facade
  import Context
  import Effects
  import Text
  import Timeouts

  datatype Action = ResumeWaiting | Replay | Handoff | MarkCommitted

  datatype Decision = Decision(run: RunId, id: ExecId, action: Action, status: Option<ExecutionStatus>,
                               waitUntil: Option<real>)

  function Deadline(r: ExternalResult, wait: real, f: Timeouts.FloatOf): real {
    r.updatedAt + Timeouts.WaitSeconds(r.request, wait, f)
  }

  /** `RuntimeRecoveryStrategy.decide`. */
  function Decide(run: RunId, id: ExecId, r: ExternalResult, now: real, wait: real, f: Timeouts.FloatOf): Decision {
    match r.status
    case IntentLogged => Decision(run, id, Replay, Some(r.status), None)
    case Dispatched =>
      var deadline := Deadline(r, wait, f);
      Decision(run, id, if now < deadline then ResumeWaiting else Handoff, Some(r.status), Some(deadline))
    case VerifiedNotFound => Decision(run, id, Replay, Some(r.status), None)
    case Acked => Decision(run, id, MarkCommitted, Some(r.status), None)
    case VerifiedCommitted => Decision(run, id, MarkCommitted, Some(r.status), None)
    case ExecutionFailed => Decision(run, id, Handoff, Some(r.status), None)
  }

  /** What a probe says: `committed` is proof of commit, proof of absence, or nothing. `Raises` is a probe that
      failed. */
  datatype Verdict = Raises | Verdict(committed: Option<bool>, record: Option<Payload>, receipt: Option<Payload>)

  type Verifier = (ExecId, string, Payload) -> Verdict

  /** `_response_payload_from_verification`. */
  function VerifiedPayload(v: Verdict): Payload
    requires v.Verdict?
  {
    var base: Payload := map["verified" := JBool(true)];
    var withReceipt := if v.receipt.Some? then base["receipt" := JObj(v.receipt.value)] else base;
    if v.record.None? then withReceipt
    else
      var withResult := if "result" in v.record.value && v.record.value["result"].JObj?
                        then withReceipt["result" := v.record.value["result"]] else withReceipt;
      withResult["target_record" := JObj(v.record.value)]
  }

  /** One pass: its run, its reading of the clock, the waiting window, the verifier if there is one. */
  datatype Pass = Pass(run: RunId, now: real, wait: real, floatOf: Timeouts.FloatOf, verifier: Option<Verifier>,
                       cfg: Config)

  predicate NeedsProbe(p: Pass, r: ExternalResult) {
    p.verifier.Some? && r.op == WRITE && r.status == Dispatched && !(p.now < Deadline(r, p.wait, p.floatOf))
  }

  /** What the probe of `r` finds; a record that needs no probe gets no verdict. */
  function Finding(p: Pass, id: ExecId, r: ExternalResult): Option<bool> {
    if !NeedsProbe(p, r) || p.verifier.value(id, r.tool, r.request).Raises? then None
    else p.verifier.value(id, r.tool, r.request).committed
  }

  function CommittedArgs(payload: Payload): ResultArgs {
    ResultArgs(ResultOk, Some(payload), None, None, None, None, None, Some(VerifiedCommitted), true)
  }

  const ABSENT_ARGS := ResultArgs(ResultUnknown, None, None, None, None, None, None, Some(VerifiedNotFound), false)

  function FindingArgs(p: Pass, id: ExecId, r: ExternalResult): ResultArgs
    requires Finding(p, id, r).Some?
  {
    if Finding(p, id, r).value then CommittedArgs(VerifiedPayload(p.verifier.value(id, r.tool, r.request)))
    else ABSENT_ARGS
  }

  /** `_verify_ambiguous_write` with its durable write; `r` is the record of `id`. */
  function SettleOne(p: Pass, w: World, s: Store, id: ExecId): Store {
    if id !in s.records || s.records[id].run != p.run || Finding(p, id, s.records[id]).None? then s
    else
      match RecordToolResult(s, p.run, id, FindingArgs(p, id, s.records[id]), w.clock(|s.log|), p.cfg, w.uuid(|s.log|))
      case Ok(t) => t
      case Err(_) => s
  }

  predicate HasToolMessage(messages: seq<Context.Message>, id: ExecId) {
    exists i :: 0 <= i < |messages| && messages[i].role == "tool" && messages[i].toolCallId == Some(id)
  }

  function StatusText(status: ExecutionStatus): string {
    match status
    case IntentLogged => "intent_logged"
    case Dispatched => "dispatched"
    case Acked => "acked"
    case VerifiedCommitted => "verified_committed"
    case VerifiedNotFound => "verified_not_found"
    case ExecutionFailed => "failed"
  }

  function ToolMessage(id: ExecId, r: ExternalResult): Context.Message
    requires r.response.Some?
  {
    Context.Message("tool", Print(JObj(r.response.value)), Some(r.tool), Some(id),
      map["source" := JStr("recovery"), "reconciled" := JBool(true), "execution_status" := JStr(StatusText(r.status))])
  }

  /** Does the history lack the tool message of this committed record? */
  predicate Lacks(s: Store, run: RunId, id: ExecId) {
    && id in s.records && s.records[id].run == run && IsCommitted(s.records[id].status) && s.records[id].response.Some?
    && run in s.contexts && !HasToolMessage(s.contexts[run].messages, id)
  }

  /** `_reconcile_tool_message`, called for the records that are committed by now. */
  function ReconcileOne(p: Pass, w: World, s: Store, id: ExecId): Store {
    if !Lacks(s, p.run, id) then s
    else
      match RecordContextMessage(s, p.run, ToolMessage(id, s.records[id]), p.cfg, w.uuid(|s.log|))
      case Ok(t) => t
      case Err(_) => s
  }

  function Candidates(s: Store, run: RunId): set<ExecId> {
    (set id | id in s.records && s.records[id].run == run) + (set id | id in Effects.PendingOf(s, run))
  }

  /** Half-step `j` of a pass over `ids`: settle an id, then reconcile it. */
  function HalfStep(p: Pass, w: World, s: Store, ids: seq<ExecId>, j: nat): Store
    requires j < 2 * |ids|
  {
    if j % 2 == 0 then SettleOne(p, w, s, ids[j / 2]) else ReconcileOne(p, w, s, ids[j / 2])
  }

  /** The durable effect of the first `k` half-steps of a pass: where it stands when it is cut there. */
  function Steps(p: Pass, w: World, s: Store, ids: seq<ExecId>, k: nat): Store
    requires k <= 2 * |ids|
  {
    if k == 0 then s else HalfStep(p, w, Steps(p, w, s, ids, k - 1), ids, k - 1)
  }

  /** `recover_run`, as far as the store can tell. */
  function RecoverRun(p: Pass, w: World, s: Store): Store {
    if p.run !in s.contexts then s
    else
      var ids := Sorted(Candidates(s, p.run));
      Steps(p, w, s, ids, 2 * |ids|)
  }

  // ---------------------------------------------------------------- half-steps

  /** A record without its time stamp, which only matters while the waiting window is open. */
  function Timeless(r: ExternalResult): ExternalResult {
    if r.status == Dispatched then r else r.(updatedAt := 0.0)
  }

  function SettledRecord(p: Pass, id: ExecId, r: ExternalResult, at: real): ExternalResult {
    if Finding(p, id, r).None? then r
    else
      var a := FindingArgs(p, id, r);
      r.(response := a.response, result := a.result, status := ResolveStatus(a.status, a.result), error := None,
         updatedAt := at)
  }

  lemma SettledArgs(p: Pass, id: ExecId, r: ExternalResult, at: real)
    requires Finding(p, id, r).Some?
    ensures ResultRecordOf(Some(r), r.run, FindingArgs(p, id, r), at) == Ok(SettledRecord(p, id, r, at))
    ensures r.status == Dispatched
    ensures var a := FindingArgs(p, id, r);
      Allowed(Dispatched, ResolveStatus(a.status, a.result)) && ShouldClear(a) == (Finding(p, id, r) == Some(true))
  {
    hide VerifiedPayload, Deadline;
  }

  lemma {:induction false} SettleEffect(p: Pass, w: World, s: Store, id: ExecId)
    requires p.run in s.contexts
    ensures var t := SettleOne(p, w, s, id);
      && (id !in s.records || s.records[id].run != p.run || Finding(p, id, s.records[id]).None? ==> t == s)
      && (id in s.records && s.records[id].run == p.run ==> (
            && t.records == s.records[id := SettledRecord(p, id, s.records[id], w.clock(|s.log|))]
            && Effects.OnlyRun(s, t, p.run, Effects.ViewOf(s, p.run).(pending :=
                 Effects.ClearedIf(Effects.PendingOf(s, p.run), id, Finding(p, id, s.records[id]) == Some(true))))))
  {
    hide VerifiedPayload, NeedsProbe, FindingArgs, ResultRecordOf, SettledRecord, Finding, ShouldClear;
    if id in s.records && s.records[id].run == p.run {
      if Finding(p, id, s.records[id]).Some? {
        SettledArgs(p, id, s.records[id], w.clock(|s.log|));
        Effects.ResultEffect(s, p.run, id, FindingArgs(p, id, s.records[id]), w.clock(|s.log|), p.cfg, w.uuid(|s.log|));
      } else {
        NothingFound(p, id, s.records[id], w.clock(|s.log|));
        assert s.records[id := s.records[id]] == s.records;
      }
    }
  }

  lemma NothingFound(p: Pass, id: ExecId, r: ExternalResult, at: real)
    requires Finding(p, id, r).None?
    ensures SettledRecord(p, id, r, at) == r
  {
  }

  lemma PrintedObject(fields: Payload)
    ensures var t := Print(JObj(fields)); t != [] && t[0] == '{' && t[|t| - 1] == '}'
  {
  }

  lemma ToolMessageClean(id: ExecId, r: ExternalResult)
    requires r.response.Some?
    ensures Context.Validate(ToolMessage(id, r)) == Ok(ToolMessage(id, r))
  {
    hide Print;
    var t := Print(JObj(r.response.value));
    PrintedObject(r.response.value);
    Text.StripTrims(t);
    Text.StripTrims("tool");
  }

  lemma ReconcileEffect(p: Pass, w: World, s: Store, id: ExecId)
    ensures var t := ReconcileOne(p, w, s, id);
      && (!Lacks(s, p.run, id) ==> t == s)
      && t.records == s.records
      && Effects.OnlyRun(s, t, p.run, Effects.ViewOf(s, p.run).(messages :=
           Effects.MessagesOf(s, p.run) + if Lacks(s, p.run, id) then [ToolMessage(id, s.records[id])] else []))
  {
    hide RecordContextMessage, Print, HasToolMessage, Context.Validate;
    if Lacks(s, p.run, id) {
      ToolMessageClean(id, s.records[id]);
      Effects.MessageEffect(s, p.run, ToolMessage(id, s.records[id]), p.cfg, w.uuid(|s.log|));
    } else {
      assert Effects.MessagesOf(s, p.run) + [] == Effects.MessagesOf(s, p.run);
    }
  }

  // ---------------------------------------------------------------- a second pass, and a pass after a cut

  predicate SettleDone(p: Pass, s: Store, id: ExecId) {
    id !in s.records || s.records[id].run != p.run || Finding(p, id, s.records[id]).None?
  }

  predicate Done(p: Pass, s: Store, ids: seq<ExecId>, j: nat)
    requires j < 2 * |ids|
  {
    if j % 2 == 0 then SettleDone(p, s, ids[j / 2]) else !Lacks(s, p.run, ids[j / 2])
  }

  lemma DoneIsQuiet(p: Pass, w: World, s: Store, ids: seq<ExecId>, j: nat)
    requires p.run in s.contexts && j < 2 * |ids| && Done(p, s, ids, j)
    ensures HalfStep(p, w, s, ids, j) == s
  {
    hide Lacks, Finding;
    if j % 2 == 0 { SettleEffect(p, w, s, ids[j / 2]); } else { ReconcileEffect(p, w, s, ids[j / 2]); }
  }

  lemma SettledIsFound(p: Pass, id: ExecId, r: ExternalResult, at: real)
    ensures Finding(p, id, SettledRecord(p, id, r, at)).None?
    ensures SettledRecord(p, id, r, at).run == r.run
    ensures Finding(p, id, r).Some? ==> r.status == Dispatched
  {
    hide VerifiedPayload, Deadline;
  }

  lemma HalfStepDone(p: Pass, w: World, s: Store, ids: seq<ExecId>, j: nat)
    requires p.run in s.contexts && j < 2 * |ids|
    ensures var t := HalfStep(p, w, s, ids, j); p.run in t.contexts && Done(p, t, ids, j)
  {
    hide Finding, SettledRecord, HasToolMessage, RecordToolResult, RecordContextMessage;
    var id, t := ids[j / 2], HalfStep(p, w, s, ids, j);
    assert Effects.ViewOf(s, p.run).known;
    if j % 2 == 0 {
      SettleEffect(p, w, s, id);
      if id in s.records && s.records[id].run == p.run { SettledIsFound(p, id, s.records[id], w.clock(|s.log|)); }
      assert t == s || Effects.ViewOf(t, p.run).known;
    } else {
      ReconcileEffect(p, w, s, id);
      assert Effects.ViewOf(t, p.run).known;
      if Lacks(s, p.run, id) { AppendedIsThere(s.contexts[p.run].messages, id, s.records[id]); }
      assert Effects.ViewOf(t, p.run).messages == t.contexts[p.run].messages;
    }
  }

  lemma AppendedIsThere(messages: seq<Context.Message>, id: ExecId, r: ExternalResult)
    requires r.response.Some?
    ensures HasToolMessage(messages + [ToolMessage(id, r)], id)
  {
    assert (messages + [ToolMessage(id, r)])[|messages|] == ToolMessage(id, r);
  }

  lemma MessagesStay(a: seq<Context.Message>, b: seq<Context.Message>, id: ExecId)
    requires HasToolMessage(a, id)
    ensures HasToolMessage(a + b, id)
  {
    var i :| 0 <= i < |a| && a[i].role == "tool" && a[i].toolCallId == Some(id);
    assert (a + b)[i] == a[i];
  }

  /** What was settled or reconciled stays so while the pass goes on to other half-steps. */
  lemma DoneStays(p: Pass, w: World, s: Store, ids: seq<ExecId>, i: nat, j: nat)
    requires p.run in s.contexts && NoDup(ids) && j < i < 2 * |ids| && Done(p, s, ids, j)
    ensures Done(p, HalfStep(p, w, s, ids, i), ids, j)
  {
    hide Finding, SettledRecord, HasToolMessage, RecordToolResult, RecordContextMessage, ToolMessage;
    var mine, theirs, t := ids[j / 2], ids[i / 2], HalfStep(p, w, s, ids, i);
    assert Effects.ViewOf(s, p.run).known && Effects.ViewOf(s, p.run).messages == s.contexts[p.run].messages;
    if i % 2 == 0 {
      SettleEffect(p, w, s, theirs);
      assert mine != theirs;
      assert p.run in t.contexts ==> Effects.ViewOf(t, p.run).messages == t.contexts[p.run].messages;
    } else {
      ReconcileEffect(p, w, s, theirs);
      assert Effects.ViewOf(t, p.run).messages == t.contexts[p.run].messages;
      if j % 2 == 1 && HasToolMessage(s.contexts[p.run].messages, mine) {
        MessagesStay(s.contexts[p.run].messages,
                     if Lacks(s, p.run, theirs) then [ToolMessage(theirs, s.records[theirs])] else [], mine);
      }
    }
  }

  lemma {:induction false} PrefixDone(p: Pass, w: World, s: Store, ids: seq<ExecId>, k: nat, j: nat)
    requires p.run in s.contexts && NoDup(ids) && j < k <= 2 * |ids|
    ensures var t := Steps(p, w, s, ids, k); p.run in t.contexts && Done(p, t, ids, j)
  {
    hide Done, HalfStep;
    var before := Steps(p, w, s, ids, k - 1);
    StillKnown(p, w, s, ids, k - 1);
    HalfStepDone(p, w, before, ids, k - 1);
    if j < k - 1 {
      PrefixDone(p, w, s, ids, k - 1, j);
      DoneStays(p, w, before, ids, k - 1, j);
    }
  }

  lemma {:induction false} StillKnown(p: Pass, w: World, s: Store, ids: seq<ExecId>, k: nat)
    requires p.run in s.contexts && k <= 2 * |ids|
    ensures p.run in Steps(p, w, s, ids, k).contexts
  {
    hide Done, HalfStep;
    if k > 0 {
      StillKnown(p, w, s, ids, k - 1);
      HalfStepDone(p, w, Steps(p, w, s, ids, k - 1), ids, k - 1);
    }
  }

  /** Half-steps that are already done do nothing, whatever the clock reads now. */
  lemma {:induction false} DoneStepsQuiet(p: Pass, w: World, s: Store, ids: seq<ExecId>, k: nat)
    requires p.run in s.contexts && k <= 2 * |ids| && forall j :: 0 <= j < k ==> Done(p, s, ids, j)
    ensures Steps(p, w, s, ids, k) == s
  {
    hide Done, HalfStep;
    if k > 0 {
      DoneStepsQuiet(p, w, s, ids, k - 1);
      DoneIsQuiet(p, w, s, ids, k - 1);
    }
  }

  lemma CandidatesStay(p: Pass, w: World, s: Store, ids: seq<ExecId>, j: nat)
    requires p.run in s.contexts && j < 2 * |ids|
    ensures Candidates(HalfStep(p, w, s, ids, j), p.run) == Candidates(s, p.run)
  {
    hide Finding, SettledRecord, Lacks, RecordToolResult, RecordContextMessage, ToolMessage;
    var id, t := ids[j / 2], HalfStep(p, w, s, ids, j);
    assert Effects.ViewOf(t, p.run).pending == Effects.PendingOf(t, p.run)
      && Effects.ViewOf(s, p.run).pending == Effects.PendingOf(s, p.run);
    if j % 2 == 0 {
      SettleEffect(p, w, s, id);
      if id in s.records && s.records[id].run == p.run { SettledIsFound(p, id, s.records[id], w.clock(|s.log|)); }
    } else {
      ReconcileEffect(p, w, s, id);
    }
  }

  lemma {:induction false} PassCandidates(p: Pass, w: World, s: Store, ids: seq<ExecId>, k: nat)
    requires p.run in s.contexts && k <= 2 * |ids|
    ensures Candidates(Steps(p, w, s, ids, k), p.run) == Candidates(s, p.run)
  {
    hide Candidates, HalfStep;
    if k > 0 {
      PassCandidates(p, w, s, ids, k - 1);
      StillKnown(p, w, s, ids, k - 1);
      CandidatesStay(p, w, Steps(p, w, s, ids, k - 1), ids, k - 1);
    }
  }

  /** With the clock reading and the answers of the verifier fixed, a second pass writes nothing at all. */
  lemma {:induction false} SecondPassSilent(p: Pass, w: World, w2: World, s: Store)
    ensures RecoverRun(p, w2, RecoverRun(p, w, s)) == RecoverRun(p, w, s)
  {
    hide Steps, Done, Candidates;
    if p.run in s.contexts {
      var ids := Sorted(Candidates(s, p.run));
      var t := Steps(p, w, s, ids, 2 * |ids|);
      PassCandidates(p, w, s, ids, 2 * |ids|);
      StillKnown(p, w, s, ids, 2 * |ids|);
      forall j | 0 <= j < 2 * |ids| ensures Done(p, t, ids, j) { PrefixDone(p, w, s, ids, 2 * |ids|, j); }
      DoneStepsQuiet(p, w2, t, ids, 2 * |ids|);
    }
  }

  /** The same executions and histories, time stamps aside. */
  ghost predicate Same(s: Store, t: Store) {
    && s.records.Keys == t.records.Keys
    && (forall id :: id in s.records ==> Timeless(s.records[id]) == Timeless(t.records[id]))
    && (forall run :: Effects.ViewOf(s, run) == Effects.ViewOf(t, run))
  }

  lemma TimelessSettled(p: Pass, id: ExecId, q: ExternalResult, r: ExternalResult, at: real, bt: real)
    requires Timeless(q) == Timeless(r)
    ensures Finding(p, id, q) == Finding(p, id, r)
    ensures Timeless(SettledRecord(p, id, q, at)) == Timeless(SettledRecord(p, id, r, bt))
  {
    hide VerifiedPayload, Deadline;
    if q.status == Dispatched { assert q == r; }
  }

  lemma HalfStepSame(p: Pass, w: World, w2: World, s: Store, t: Store, ids: seq<ExecId>, j: nat)
    requires p.run in s.contexts && p.run in t.contexts && j < 2 * |ids| && Same(s, t)
    ensures Same(HalfStep(p, w, s, ids, j), HalfStep(p, w2, t, ids, j))
  {
    hide SettleOne, ReconcileOne, Same;
    if j % 2 == 0 { SettleSame(p, w, w2, s, t, ids[j / 2]); } else { ReconcileSame(p, w, w2, s, t, ids[j / 2]); }
  }

  lemma SettleSame(p: Pass, w: World, w2: World, s: Store, t: Store, id: ExecId)
    requires p.run in s.contexts && p.run in t.contexts && Same(s, t)
    ensures Same(SettleOne(p, w, s, id), SettleOne(p, w2, t, id))
  {
    hide Finding, SettledRecord, HasToolMessage, SettleOne;
    SettleEffect(p, w, s, id);
    SettleEffect(p, w2, t, id);
    if id in s.records { TimelessSettled(p, id, s.records[id], t.records[id], w.clock(|s.log|), w2.clock(|t.log|)); }
  }

  lemma ReconcileSame(p: Pass, w: World, w2: World, s: Store, t: Store, id: ExecId)
    requires p.run in s.contexts && p.run in t.contexts && Same(s, t)
    ensures Same(ReconcileOne(p, w, s, id), ReconcileOne(p, w2, t, id))
  {
    hide Finding, SettledRecord, HasToolMessage, ReconcileOne, Print;
    assert Effects.ViewOf(s, p.run).messages == Effects.ViewOf(t, p.run).messages;
    ReconcileEffect(p, w, s, id);
    ReconcileEffect(p, w2, t, id);
  }

  lemma {:induction false} ResumedSame(p: Pass, w: World, w2: World, s: Store, u: Store, ids: seq<ExecId>, k: nat,
                                       m: nat)
    requires p.run in s.contexts && NoDup(ids) && k <= m <= 2 * |ids| && u == Steps(p, w, s, ids, k)
    ensures p.run in u.contexts && Same(Steps(p, w2, u, ids, m), Steps(p, w, s, ids, m))
  {
    hide Done, HalfStep, Same;
    StillKnown(p, w, s, ids, k);
    if m == k {
      forall j | 0 <= j < k ensures Done(p, u, ids, j) { PrefixDone(p, w, s, ids, k, j); }
      DoneStepsQuiet(p, w2, u, ids, k);
      SameReflexive(u);
    } else {
      ResumedSame(p, w, w2, s, u, ids, k, m - 1);
      StillKnown(p, w, s, ids, m - 1);
      StillKnown(p, w2, u, ids, m - 1);
      HalfStepSame(p, w2, w, Steps(p, w2, u, ids, m - 1), Steps(p, w, s, ids, m - 1), ids, m - 1);
    }
  }

  lemma SameReflexive(s: Store)
    ensures Same(s, s)
  {
  }

  /** A pass cut after any of its writes and run again ends like a pass that was never cut. */
  lemma {:induction false} CutPassResumes(p: Pass, w: World, w2: World, s: Store, k: nat)
    requires p.run in s.contexts && k <= 2 * |Sorted(Candidates(s, p.run))|
    ensures Same(RecoverRun(p, w2, Steps(p, w, s, Sorted(Candidates(s, p.run)), k)), RecoverRun(p, w, s))
  {
    hide Steps, Same, Candidates;
    var ids := Sorted(Candidates(s, p.run));
    PassCandidates(p, w, s, ids, k);
    StillKnown(p, w, s, ids, k);
    ResumedSame(p, w, w2, s, Steps(p, w, s, ids, k), ids, k, 2 * |ids|);
  }

  // ---------------------------------------------------------------- what a pass leaves behind

  predicate AtMostOneToolMessage(messages: seq<Context.Message>, id: ExecId) {
    forall i, j :: 0 <= i < j < |messages| && IsToolMessage(messages[i], id) ==> !IsToolMessage(messages[j], id)
  }

  predicate IsToolMessage(m: Context.Message, id: ExecId) {
    m.role == "tool" && m.toolCallId == Some(id)
  }

  /** However many passes run and wherever they are cut, an id never gets a second tool message. */
  lemma {:induction false} NeverTwoToolMessages(p: Pass, w: World, s: Store, ids: seq<ExecId>, k: nat, id: ExecId)
    requires p.run in s.contexts && k <= 2 * |ids| && AtMostOneToolMessage(Effects.MessagesOf(s, p.run), id)
    ensures AtMostOneToolMessage(Effects.MessagesOf(Steps(p, w, s, ids, k), p.run), id)
  {
    hide HalfStep;
    if k > 0 {
      NeverTwoToolMessages(p, w, s, ids, k - 1, id);
      StillKnown(p, w, s, ids, k - 1);
      HalfStepOneMessage(p, w, Steps(p, w, s, ids, k - 1), ids, k - 1, id);
    }
  }

  lemma HalfStepOneMessage(p: Pass, w: World, s: Store, ids: seq<ExecId>, j: nat, id: ExecId)
    requires p.run in s.contexts && j < 2 * |ids| && AtMostOneToolMessage(Effects.MessagesOf(s, p.run), id)
    ensures AtMostOneToolMessage(Effects.MessagesOf(HalfStep(p, w, s, ids, j), p.run), id)
  {
    hide Finding, SettledRecord, RecordToolResult, RecordContextMessage, Print;
    var t := HalfStep(p, w, s, ids, j);
    assert Effects.ViewOf(t, p.run).messages == Effects.MessagesOf(t, p.run)
      && Effects.ViewOf(s, p.run).messages == Effects.MessagesOf(s, p.run);
    if j % 2 == 0 { SettleEffect(p, w, s, ids[j / 2]); } else { ReconcileEffect(p, w, s, ids[j / 2]); }
  }

  /** `x` is `r` after its probe, whenever that was. */
  ghost predicate Settled(p: Pass, id: ExecId, r: ExternalResult, x: ExternalResult) {
    exists at: real :: x == SettledRecord(p, id, r, at)
  }

  lemma SettledNow(p: Pass, id: ExecId, r: ExternalResult, at: real)
    ensures Settled(p, id, r, SettledRecord(p, id, r, at))
  {
  }

  lemma {:induction false} StepsRecord(p: Pass, w: World, s: Store, ids: seq<ExecId>, k: nat, id: ExecId)
    requires p.run in s.contexts && NoDup(ids) && k <= 2 * |ids| && id in s.records && s.records[id].run == p.run
    ensures var t := Steps(p, w, s, ids, k);
      && id in t.records
      && (id in ids[..(k + 1) / 2] ==>
            && Timeless(t.records[id]) == Timeless(SettledRecord(p, id, s.records[id], 0.0))
            && Settled(p, id, s.records[id], t.records[id]))
      && (id !in ids[..(k + 1) / 2] ==> t.records[id] == s.records[id])
  {
    hide Finding, SettledRecord, Settled, Timeless, RecordToolResult, RecordContextMessage, Print, Lacks;
    if k > 0 {
      StepsRecord(p, w, s, ids, k - 1, id);
      StillKnown(p, w, s, ids, k - 1);
      var u := Steps(p, w, s, ids, k - 1);
      var n := (k - 1) / 2;
      if k % 2 == 1 {
        SettleEffect(p, w, u, ids[n]);
        assert ids[..n + 1] == ids[..n] + [ids[n]];
        assert ids[n] !in ids[..n];
        if ids[n] == id {
          TimelessSettled(p, id, s.records[id], s.records[id], w.clock(|u.log|), 0.0);
          SettledNow(p, id, s.records[id], w.clock(|u.log|));
        }
      } else {
        ReconcileEffect(p, w, u, ids[n]);
      }
    }
  }

  /** After a pass every execution of the run is where the verifier's answer puts it, and every committed one with a
      response has its tool message. */
  lemma {:induction false} PassSettles(p: Pass, w: World, s: Store, id: ExecId)
    requires p.run in s.contexts && id in s.records && s.records[id].run == p.run
    ensures var t := RecoverRun(p, w, s);
      && id in t.records && Timeless(t.records[id]) == Timeless(SettledRecord(p, id, s.records[id], 0.0))
      && Settled(p, id, s.records[id], t.records[id])
      && !Lacks(t, p.run, id)
  {
    hide Steps, Timeless, SettledRecord, Settled, Lacks;
    var ids := Sorted(Candidates(s, p.run));
    assert id in ids;
    var i :| 0 <= i < |ids| && ids[i] == id;
    assert ids[..|ids|] == ids;
    StepsRecord(p, w, s, ids, 2 * |ids|, id);
    PrefixDone(p, w, s, ids, 2 * |ids|, 2 * i + 1);
  }
}
