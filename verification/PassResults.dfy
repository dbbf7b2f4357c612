/** What a recovery pass makes of the records and the messages, in terms of what the verifier answered. */
module PassResults {
  import opened Prelude
  import opened Json
  import opened Models
  import opened Facade
  import opened Recovery
  import Context
  import Effects
  import Timeouts

  // ---------------------------------------------------------------- the records

  /** When the waiting window of a dispatched record is over. */
  function WindowEnd(p: Pass, r: ExternalResult): real {
    r.updatedAt + Timeouts.WaitSeconds(r.request, p.wait, p.floatOf)
  }

  /** The verifier is asked about overdue writes only. */
  predicate Asked(p: Pass, r: ExternalResult) {
    p.verifier.Some? && r.op == WRITE && r.status == Dispatched && p.now >= WindowEnd(p, r)
  }

  /** The response that a confirmed commit is given: what the verifier observed, and nothing else. */
  predicate Observed(v: Verdict, q: Payload)
    requires v.Verdict?
  {
    && q.Keys <= {"verified", "receipt", "result", "target_record"}
    && "verified" in q && q["verified"] == JBool(true)
    && ("receipt" in q <==> v.receipt.Some?) && (v.receipt.Some? ==> q["receipt"] == JObj(v.receipt.value))
    && ("target_record" in q <==> v.record.Some?)
    && (v.record.Some? ==> q["target_record"] == JObj(v.record.value))
    && ("result" in q <==> v.record.Some? && "result" in v.record.value && v.record.value["result"].JObj?)
    && ("result" in q ==> q["result"] == v.record.value["result"])
  }

  /** What a pass makes of one record: a proved commit, a proved absence, or nothing. */
  predicate Judged(p: Pass, id: ExecId, r: ExternalResult, x: ExternalResult) {
    && x.run == r.run && x.item == r.item && x.tool == r.tool && x.op == r.op && x.request == r.request
    && if !Asked(p, r) then x == r
       else
         match p.verifier.value(id, r.tool, r.request)
         case Raises => x == r
         case Verdict(committed, record, receipt) =>
           match committed
           case None => x == r
           case Some(true) =>
             && x.status == VerifiedCommitted && x.result == ResultOk && x.error.None? && x.response.Some?
             && Observed(p.verifier.value(id, r.tool, r.request), x.response.value)
           case Some(false) =>
             x.status == VerifiedNotFound && x.result == ResultUnknown && x.error.None? && x.response.None?
  }

  lemma ObservedIs(v: Verdict)
    requires v.Verdict?
    ensures Observed(v, VerifiedPayload(v))
  {
    assert |"verified"| == 8 && |"receipt"| == 7 && |"result"| == 6 && |"target_record"| == 13;
  }

  lemma SettledIsJudged(p: Pass, id: ExecId, r: ExternalResult, x: ExternalResult)
    requires Settled(p, id, r, x)
    ensures Judged(p, id, r, x)
  {
    if Asked(p, r) && p.verifier.value(id, r.tool, r.request).Verdict? {
      ObservedIs(p.verifier.value(id, r.tool, r.request));
    }
    hide VerifiedPayload, Observed, Timeouts.WaitSeconds;
  }

  /** The whole pass judges every execution of its run once. */
  lemma PassJudges(p: Pass, w: World, s: Store, id: ExecId)
    requires p.run in s.contexts && id in s.records && s.records[id].run == p.run
    ensures var t := RecoverRun(p, w, s); id in t.records && Judged(p, id, s.records[id], t.records[id])
  {
    PassSettles(p, w, s, id);
    SettledIsJudged(p, id, s.records[id], RecoverRun(p, w, s).records[id]);
    hide RecoverRun, Judged, Settled;
  }

  // ---------------------------------------------------------------- the decisions

  /** What a decision says about its candidate, whose record is `x` after the pass. */
  predicate Answers(p: Pass, id: ExecId, x: Option<ExternalResult>, d: Decision) {
    && d.run == p.run && d.id == id
    && (d.status.Some? <==> x.Some?) && (x.Some? ==> d.status == Some(x.value.status))
    && (d.action == MarkCommitted <==> x.Some? && IsCommitted(x.value.status))
    && (d.action == Replay <==> x.Some? && (x.value.status == IntentLogged || x.value.status == VerifiedNotFound))
    && (d.action == ResumeWaiting <==>
          x.Some? && x.value.status == Dispatched && p.now < WindowEnd(p, x.value))
    && (d.action == Handoff <==>
          || x.None? || x.value.status == ExecutionFailed
          || (x.value.status == Dispatched && p.now >= WindowEnd(p, x.value)))
    && d.waitUntil == if x.Some? && x.value.status == Dispatched then Some(WindowEnd(p, x.value)) else None
  }

  /** A candidate of a pass: an execution of the run, or an id that is pending in it. */
  predicate Concerned(s: Store, run: RunId, id: ExecId) {
    (id in s.records && s.records[id].run == run) || id in Effects.PendingOf(s, run)
  }

  /** One decision for every candidate, in the order of the ids. */
  ghost predicate OnePerCandidate(s: Store, run: RunId, ds: seq<Decision>) {
    && (forall i, j :: 0 <= i < j < |ds| ==> ds[i].id != ds[j].id && StrLe(ds[i].id, ds[j].id))
    && (forall id :: (exists i :: 0 <= i < |ds| && ds[i].id == id) <==> Concerned(s, run, id))
  }

  // ---------------------------------------------------------------- the messages

  /** The text of a committed status. */
  function CommittedWord(status: ExecutionStatus): string {
    if status == Acked then "acked" else "verified_committed"
  }

  /** `m` tells the history what the committed execution `id` answered. */
  predicate Repairs(m: Context.Message, id: ExecId, x: ExternalResult) {
    && IsCommitted(x.status) && x.response.Some?
    && m.role == "tool" && m.toolCallId == Some(id) && m.name == Some(x.tool)
    && m.content == Print(JObj(x.response.value))
    && m.meta == map["source" := JStr("recovery"), "reconciled" := JBool(true),
                     "execution_status" := JStr(CommittedWord(x.status))]
  }

  /** Every one of these messages repairs the history of one of `ids`. */
  predicate AllRepair(s: Store, ids: seq<ExecId>, added: seq<Context.Message>) {
    forall i :: 0 <= i < |added| ==> (
      && added[i].toolCallId.Some?
      && var id := added[i].toolCallId.value;
         id in ids && id in s.records && Repairs(added[i], id, s.records[id]))
  }

  lemma ToolMessageRepairs(id: ExecId, x: ExternalResult)
    requires IsCommitted(x.status) && x.response.Some?
    ensures Repairs(ToolMessage(id, x), id, x)
  {
    hide Print;
  }

  lemma {:induction false} StepsRepair(p: Pass, w: World, s: Store, ids: seq<ExecId>, k: nat)
    returns (added: seq<Context.Message>)
    requires p.run in s.contexts && NoDup(ids) && k <= 2 * |ids|
    ensures var t := Steps(p, w, s, ids, k);
      Effects.MessagesOf(t, p.run) == Effects.MessagesOf(s, p.run) + added && AllRepair(t, ids[..k / 2], added)
  {
    hide HalfStep, AllRepair;
    if k == 0 {
      added := [];
      NoneRepairs(s, ids[..0]);
    } else {
      added := StepsRepair(p, w, s, ids, k - 1);
      var u, n := Steps(p, w, s, ids, k - 1), (k - 1) / 2;
      StillKnown(p, w, s, ids, k - 1);
      if k % 2 == 1 {
        assert ids[n] !in ids[..n];
        SettleRepairs(p, w, u, ids, k - 1, added);
      } else {
        assert ids[..k / 2] == ids[..n] + [ids[n]];
        var more := ReconcileRepairs(p, w, u, ids, k - 1, added);
        assert Effects.MessagesOf(s, p.run) + added + more == Effects.MessagesOf(s, p.run) + (added + more);
        added := added + more;
      }
    }
  }

  lemma NoneRepairs(s: Store, ids: seq<ExecId>)
    ensures AllRepair(s, ids, [])
  {
  }

  lemma SettleRepairs(p: Pass, w: World, s: Store, ids: seq<ExecId>, j: nat, added: seq<Context.Message>)
    requires p.run in s.contexts && j < 2 * |ids| && j % 2 == 0 && ids[j / 2] !in ids[..j / 2]
    requires AllRepair(s, ids[..j / 2], added)
    ensures var t := HalfStep(p, w, s, ids, j);
      Effects.MessagesOf(t, p.run) == Effects.MessagesOf(s, p.run) && AllRepair(t, ids[..j / 2], added)
  {
    hide Finding, SettledRecord, RecordToolResult, Repairs;
    var id, t := ids[j / 2], HalfStep(p, w, s, ids, j);
    SettleEffect(p, w, s, id);
    assert Effects.ViewOf(t, p.run).messages == Effects.MessagesOf(t, p.run);
    assert Effects.ViewOf(s, p.run).messages == Effects.MessagesOf(s, p.run);
  }

  lemma ReconcileRepairs(p: Pass, w: World, s: Store, ids: seq<ExecId>, j: nat, added: seq<Context.Message>)
    returns (more: seq<Context.Message>)
    requires j < 2 * |ids| && j % 2 == 1 && AllRepair(s, ids[..j / 2], added)
    ensures var t := HalfStep(p, w, s, ids, j);
      && Effects.MessagesOf(t, p.run) == Effects.MessagesOf(s, p.run) + more
      && AllRepair(t, ids[..j / 2] + [ids[j / 2]], added + more)
  {
    hide RecordContextMessage, Repairs, HasToolMessage, ToolMessage;
    var id, t := ids[j / 2], HalfStep(p, w, s, ids, j);
    ReconcileEffect(p, w, s, id);
    assert Effects.ViewOf(t, p.run).messages == Effects.MessagesOf(t, p.run);
    more := if Lacks(s, p.run, id) then [ToolMessage(id, s.records[id])] else [];
    if Lacks(s, p.run, id) {
      ToolMessageRepairs(id, s.records[id]);
      RepairNames(more[0], id, s.records[id]);
    }
  }

  lemma RepairNames(m: Context.Message, id: ExecId, x: ExternalResult)
    requires Repairs(m, id, x)
    ensures m.toolCallId == Some(id)
  {
  }

  /** The history holds what a committed execution with a response answered. */
  predicate IsTold(s: Store, run: RunId, id: ExecId) {
    id in s.records && IsCommitted(s.records[id].status) && s.records[id].response.Some? ==>
      var messages := Effects.MessagesOf(s, run);
      exists i :: 0 <= i < |messages| && messages[i].role == "tool" && messages[i].toolCallId == Some(id)
  }

  lemma NotLacking(s: Store, run: RunId, id: ExecId)
    requires !Lacks(s, run, id) && run in s.contexts && (id in s.records ==> s.records[id].run == run)
    ensures IsTold(s, run, id)
  {
    if HasToolMessage(s.contexts[run].messages, id) {
      var i :| 0 <= i < |s.contexts[run].messages| && s.contexts[run].messages[i].role == "tool"
               && s.contexts[run].messages[i].toolCallId == Some(id);
      assert Effects.MessagesOf(s, run)[i].role == "tool";
    }
  }

  /** A pass adds to the history only what committed executions of its run answered, and afterwards none of them lacks
      its message. */
  lemma {:induction false} PassRepairs(p: Pass, w: World, s: Store) returns (added: seq<Context.Message>)
    requires p.run in s.contexts
    ensures var t := RecoverRun(p, w, s);
      && Effects.MessagesOf(t, p.run) == Effects.MessagesOf(s, p.run) + added
      && (forall i :: 0 <= i < |added| ==> (
            && added[i].toolCallId.Some?
            && var id := added[i].toolCallId.value; id in t.records && Repairs(added[i], id, t.records[id])))
      && (forall id :: id in s.records && s.records[id].run == p.run ==> IsTold(t, p.run, id))
  {
    var ids := Sorted(Candidates(s, p.run));
    assert ids[..|ids|] == ids;
    added := StepsRepair(p, w, s, ids, 2 * |ids|);
    forall id | id in s.records && s.records[id].run == p.run ensures IsTold(RecoverRun(p, w, s), p.run, id) {
      PassSettles(p, w, s, id);
      StillKnown(p, w, s, ids, 2 * |ids|);
      NotLacking(RecoverRun(p, w, s), p.run, id);
    }
    hide Steps, IsTold, Repairs, Candidates, Sorted;
  }
}
