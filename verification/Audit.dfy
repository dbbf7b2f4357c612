/** `raef audit`: the executable check of the log-first invariants, and why it stays silent. */
module Audit {
  import opened Prelude
  import opened Models
  import opened Facade
  import Context
  import Effects
  import History
  import Rebuild
  import Statuses

  datatype Violation =
    | PendingWithoutRecord(id: ExecId)
    | PendingTerminal(status: ExecutionStatus, id: ExecId)
    | IntentWithoutRecord(id: ExecId)
    | CheckpointAhead(checkpointSeq: nat, latest: nat)

  const EVENT_LIMIT := 100_000

  predicate PendingBad(records: map<ExecId, ExternalResult>, id: ExecId) {
    id !in records || IsTerminal(records[id].status)
  }

  function PendingViolation(records: map<ExecId, ExternalResult>, id: ExecId): Violation {
    if id in records then PendingTerminal(records[id].status, id) else PendingWithoutRecord(id)
  }

  predicate IntentBad(records: map<ExecId, ExternalResult>, e: Event) {
    e.IntentRecorded? && e.id !in records
  }

  predicate CheckpointBad(s: Store, run: RunId) {
    var c := History.LatestCheckpoint(s.checkpoints, run, None);
    c.Some? && LatestSeq(s.log, run) > 0 && c.value.seqId > LatestSeq(s.log, run)
  }

  /** Everything the audit looks at is in order. */
  ghost predicate Clean(s: Store, run: RunId) {
    var records := RecordsOf(s, run);
    && (forall id :: id in Effects.PendingOf(s, run) ==> id in records && !IsTerminal(records[id].status))
    && (forall e :: e in History.Limited(EventsOf(s.log, run), EVENT_LIMIT) && e.IntentRecorded? ==> e.id in records)
    && !CheckpointBad(s, run)
  }

  /** `v` names one thing that is really wrong. */
  predicate Justified(s: Store, run: RunId, v: Violation) {
    var records, pending := RecordsOf(s, run), Effects.PendingOf(s, run);
    match v
    case PendingWithoutRecord(id) => id in pending && id !in records
    case PendingTerminal(status, id) =>
      id in pending && id in records && IsTerminal(status) && status == records[id].status
    case IntentWithoutRecord(id) =>
      id !in records && exists e :: e in EventsOf(s.log, run) && e.IntentRecorded? && e.id == id
    case CheckpointAhead(checkpointSeq, latest) =>
      latest == LatestSeq(s.log, run) && checkpointSeq > latest && Highest(s, run, checkpointSeq)
  }

  /** The highest sequence number of a checkpoint of the run. */
  predicate Highest(s: Store, run: RunId, seqId: nat) {
    && (exists i :: 0 <= i < |s.checkpoints| && s.checkpoints[i].run == run && s.checkpoints[i].seqId == seqId)
    && forall i :: 0 <= i < |s.checkpoints| && s.checkpoints[i].run == run ==> s.checkpoints[i].seqId <= seqId
  }

  /** The audit compares the highest checkpoint, so it complains exactly when some checkpoint is ahead of the log. */
  lemma {:induction false} AheadIs(s: Store, run: RunId)
    ensures CheckpointBad(s, run) <==>
      && LatestSeq(s.log, run) > 0
      && exists i :: 0 <= i < |s.checkpoints| && s.checkpoints[i].run == run
                     && s.checkpoints[i].seqId > LatestSeq(s.log, run)
    ensures var c := History.LatestCheckpoint(s.checkpoints, run, None); c.Some? ==> Highest(s, run, c.value.seqId)
  {
    var i := History.LatestIsYoungest(s.checkpoints, run, None);
    hide LatestSeq, History.LatestCheckpoint;
    assert forall j :: 0 <= j < |s.checkpoints| ==>
      (History.Selected(s.checkpoints[j], run, None) <==> s.checkpoints[j].run == run);
  }

  /** `_cmd_audit`: the run is reported as sound exactly when it is, and every line of the report is justified. */
  method AuditRun(s: Store, run: RunId) returns (violations: seq<Violation>)
    ensures violations == [] <==> Clean(s, run)
    ensures forall v :: v in violations ==> Justified(s, run, v)
  {
    violations := [];
    var records := RecordsOf(s, run);
    var pending := Effects.PendingOf(s, run);
    for i := 0 to |pending|
      invariant violations == [] <==> forall j :: 0 <= j < i ==> !PendingBad(records, pending[j])
      invariant forall v :: v in violations ==> Justified(s, run, v)
    {
      if PendingBad(records, pending[i]) {
        violations := violations + [PendingViolation(records, pending[i])];
      }
    }
    assert violations == [] <==> forall id :: id in pending ==> id in records && !IsTerminal(records[id].status);
    var events := History.Limited(EventsOf(s.log, run), EVENT_LIMIT);
    ghost var pendingFine := violations == [];
    for i := 0 to |events|
      invariant violations == [] <==> pendingFine && forall j :: 0 <= j < i ==> !IntentBad(records, events[j])
      invariant forall v :: v in violations ==> Justified(s, run, v)
    {
      if events[i].IntentRecorded? && events[i].id !in records {
        assert events[i] in EventsOf(s.log, run);
        violations := violations + [IntentWithoutRecord(events[i].id)];
      }
    }
    assert violations == [] <==> pendingFine && forall e :: e in events ==> !IntentBad(records, e);
    AheadIs(s, run);
    var checkpoint, latest := History.LatestCheckpoint(s.checkpoints, run, None), LatestSeq(s.log, run);
    if checkpoint.Some? && latest > 0 && checkpoint.value.seqId > latest {
      violations := violations + [CheckpointAhead(checkpoint.value.seqId, latest)];
    }
  }

  // ---------------------------------------------------------------- why it stays silent

  /** A result that keeps its id pending must leave the id open. The executor and the coordinator obey this. */
  predicate Disciplined(op: Op) {
    op.OpResult? ==> op.args.clearPending || IsOpen(ResolveStatus(op.args.status, op.args.result))
  }

  predicate OpenRecord(s: Store, run: RunId, id: ExecId) {
    id in s.records && s.records[id].run == run && IsOpen(s.records[id].status)
  }

  /** Every pending id has an open record of its own run. */
  ghost predicate PendingOpen(s: Store) {
    forall run, id :: id in Effects.PendingOf(s, run) ==> OpenRecord(s, run, id)
  }

  lemma IntentKeepsOpen(s: Store, op: Op, now: real, cfg: Config, ck: string)
    requires PendingOpen(s) && cfg.dedup && op.OpIntent?
    ensures Perform(s, op, now, cfg, ck).Ok? ==> PendingOpen(Perform(s, op, now, cfg, ck).value)
  {
    hide RecordToolIntent;
    var r := Perform(s, op, now, cfg, ck);
    Effects.IntentEffect(s, op.run, op.item, op.id, op.tool, op.op, op.request, now, cfg, ck);
    if r.Ok? && r.value != s {
      forall q, i | i in Effects.PendingOf(r.value, q) ensures OpenRecord(r.value, q, i) {
        assert Effects.ViewOf(r.value, q).pending == Effects.PendingOf(r.value, q);
        if i in Effects.PendingOf(s, q) { assert OpenRecord(s, q, i); }
      }
    }
  }

  lemma DispatchKeepsOpen(s: Store, op: Op, now: real, cfg: Config, ck: string)
    requires PendingOpen(s) && op.OpDispatch?
    ensures Perform(s, op, now, cfg, ck).Ok? ==> PendingOpen(Perform(s, op, now, cfg, ck).value)
  {
    hide RecordToolDispatch;
    var r := Perform(s, op, now, cfg, ck);
    Effects.DispatchEffect(s, op.run, op.id, now, cfg, ck);
    if r.Ok? {
      forall q, i | i in Effects.PendingOf(r.value, q) ensures OpenRecord(r.value, q, i) {
        assert Effects.ViewOf(r.value, q).pending == Effects.PendingOf(r.value, q);
        assert Effects.ViewOf(s, q).pending == Effects.PendingOf(s, q);
        assert OpenRecord(s, q, i);
      }
    }
  }

  lemma ResultKeepsOpen(s: Store, op: Op, now: real, cfg: Config, ck: string)
    requires PendingOpen(s) && op.OpResult? && Disciplined(op)
    ensures Perform(s, op, now, cfg, ck).Ok? ==> PendingOpen(Perform(s, op, now, cfg, ck).value)
  {
    hide RecordToolResult;
    var r := Perform(s, op, now, cfg, ck);
    Effects.ResultEffect(s, op.run, op.id, op.args, now, cfg, ck);
    if r.Ok? {
      forall q, i | i in Effects.PendingOf(r.value, q) ensures OpenRecord(r.value, q, i) {
        assert Effects.ViewOf(r.value, q).pending == Effects.PendingOf(r.value, q);
        assert Effects.ViewOf(s, q).pending == Effects.PendingOf(s, q);
        assert i in Effects.PendingOf(s, q);
        assert OpenRecord(s, q, i);
      }
    }
  }

  lemma QuietOpKeepsOpen(s: Store, op: Op, now: real, cfg: Config, ck: string)
    requires PendingOpen(s) && !op.OpIntent? && !op.OpDispatch? && !op.OpResult?
    ensures Perform(s, op, now, cfg, ck).Ok? ==> PendingOpen(Perform(s, op, now, cfg, ck).value)
  {
    hide StartRun, RecordContextMessage, RecordLlmTurn, AdvancePlanItem, SetActivePlanItem, WriteCheckpoint,
         Context.Validate;
    var r := Perform(s, op, now, cfg, ck);
    if r.Ok? && r.value != s {
      if op.OpStart? { Effects.StartEffect(s, op, now, cfg, ck); }
      else if op.OpMessage? { Effects.MessageEffect(s, op.run, op.message, cfg, ck); }
      else if op.OpLlmTurn? { Effects.TurnEffect(s, op, now, cfg, ck); }
      else { Effects.PlanOpEffect(s, op, now, cfg, ck); }
      forall q, i | i in Effects.PendingOf(r.value, q) ensures OpenRecord(r.value, q, i) {
        assert Effects.ViewOf(r.value, q).pending == Effects.PendingOf(r.value, q);
        assert Effects.ViewOf(s, q).pending == Effects.PendingOf(s, q);
        assert i in Effects.PendingOf(s, q) && OpenRecord(s, q, i);
      }
    }
  }

  lemma {:induction false} HistoryPendingOpen(ops: seq<Stamped>, cfg: Config)
    requires cfg.dedup && forall i :: 0 <= i < |ops| ==> Disciplined(ops[i].op)
    ensures PendingOpen(RunOps(EMPTY, ops, cfg))
  {
    hide Perform;
    if ops != [] {
      var rest, c := ops[..|ops| - 1], ops[|ops| - 1];
      HistoryPendingOpen(rest, cfg);
      hide PendingOpen;
      var s := RunOps(EMPTY, rest, cfg);
      if c.op.OpIntent? { IntentKeepsOpen(s, c.op, c.now, cfg, c.ck); }
      else if c.op.OpDispatch? { DispatchKeepsOpen(s, c.op, c.now, cfg, c.ck); }
      else if c.op.OpResult? { ResultKeepsOpen(s, c.op, c.now, cfg, c.ck); }
      else { QuietOpKeepsOpen(s, c.op, c.now, cfg, c.ck); }
    }
  }

  lemma {:induction false} IntentsTraced(es: seq<Event>, e: Event)
    requires e in es && e.IntentRecorded?
    ensures Statuses.Trace(es, e.id) != []
  {
    if e != es[|es| - 1] {
      IntentsTraced(es[..|es| - 1], e);
    }
  }

  lemma {:induction false} LatestIsLatest(log: seq<LogEntry>, run: RunId, k: nat)
    requires 0 < k <= |log| && log[k - 1].run == run
    ensures k <= LatestSeq(log, run)
  {
    if log[|log| - 1].run != run { LatestIsLatest(log[..|log| - 1], run, k); }
  }

  lemma SoundIsClean(s: Store, run: RunId)
    requires History.Sound(s, true) && PendingOpen(s)
    ensures Clean(s, run)
  {
    hide Rebuild.Fold, Statuses.Trace, LatestSeq, History.LatestCheckpoint, EventsOf;
    forall id | id in Effects.PendingOf(s, run)
      ensures id in RecordsOf(s, run) && !IsTerminal(RecordsOf(s, run)[id].status)
    {
      assert OpenRecord(s, run, id);
    }
    forall e | e in History.Limited(EventsOf(s.log, run), EVENT_LIMIT) && e.IntentRecorded?
      ensures e.id in RecordsOf(s, run)
    {
      IntentsTraced(EventsOf(s.log, run), e);
      assert Statuses.Matches(EventsOf(s.log, run), s.records, run, e.id, true);
    }
    var c := History.LatestCheckpoint(s.checkpoints, run, None);
    if c.Some? {
      assert Rebuild.SnapshotFaithful(s.log, c.value);
      LatestIsLatest(s.log, run, c.value.seqId);
    }
  }

  /** With deduplication, disciplined histories never give the audit anything to report, whoever runs and wherever they
      stop. */
  lemma {:induction false} AuditStaysSilent(ops: seq<Stamped>, cfg: Config, run: RunId)
    requires cfg.dedup && forall i :: 0 <= i < |ops| ==> Disciplined(ops[i].op)
    ensures Clean(RunOps(EMPTY, ops, cfg), run)
  {
    hide *;
    HistoryPendingOpen(ops, cfg);
    History.HistorySound(ops, cfg);
    SoundIsClean(RunOps(EMPTY, ops, cfg), run);
  }

  /** Without that discipline it does report: keep an id pending and call it failed. */
  lemma UndisciplinedReported(s: Store, run: RunId, id: ExecId, response: Option<Payload>, now: real, cfg: Config,
                              ck: string)
    requires run in s.contexts && id in s.contexts[run].pending && OpenRecord(s, run, id)
    ensures var args := ResultArgs(ResultError, response, None, None, None, None, None, None, false);
      var r := RecordToolResult(s, run, id, args, now, cfg, ck);
      r.Ok? && !Clean(r.value, run)
  {
    var args := ResultArgs(ResultError, response, None, None, None, None, None, None, false);
    Effects.ResultEffect(s, run, id, args, now, cfg, ck);
    hide RecordToolResult;
    var t := RecordToolResult(s, run, id, args, now, cfg, ck).value;
    assert Effects.ViewOf(t, run).pending == Effects.PendingOf(t, run);
    assert id in Effects.PendingOf(t, run) && IsTerminal(RecordsOf(t, run)[id].status);
  }
}
