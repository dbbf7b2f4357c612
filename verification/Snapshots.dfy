/** The executions that a checkpoint may hold are those that the log knew when it was taken. */
module Snapshots {
  import opened Prelude
  import opened Models
  import opened Facade
  import FacadeScopes
  import History
  import Rebuild
  import Statuses

  /** The execution part of a checkpoint, read off the log up to its sequence number. */
  ghost predicate ResultsSay(log: seq<LogEntry>, c: Checkpoint) {
    c.results.Some? ==> (
      && c.seqId <= |log|
      && forall id :: ResultSays(EventsOf(log[..c.seqId], c.run), c.results.value, id))
  }

  predicate ResultSays(es: seq<Event>, results: map<ExecId, ExternalResult>, id: ExecId) {
    var t := Statuses.Trace(es, id);
    (id in results <==> t != []) && (id in results ==> Last(t) == Some(results[id].status))
  }

  ghost predicate AllResultsSay(s: Store) {
    forall i :: 0 <= i < |s.checkpoints| ==> ResultsSay(s.log, s.checkpoints[i])
  }

  /** Log and checkpoints only grow, and what is added holds no executions. */
  predicate PlainGrowth(s: Store, t: Store) {
    && s.log <= t.log && s.checkpoints <= t.checkpoints
    && forall i :: |s.checkpoints| <= i < |t.checkpoints| ==> t.checkpoints[i].results.None?
  }

  lemma GrowthKeeps(s: Store, t: Store)
    requires AllResultsSay(s) && PlainGrowth(s, t)
    ensures AllResultsSay(t)
  {
    hide EventsOf, ResultSays;
    forall i | 0 <= i < |t.checkpoints| ensures ResultsSay(t.log, t.checkpoints[i]) {
      if i < |s.checkpoints| {
        var c := s.checkpoints[i];
        assert t.checkpoints[i] == c && ResultsSay(s.log, c);
        if c.results.Some? { assert t.log[..c.seqId] == s.log[..c.seqId]; }
      }
    }
  }

  predicate WithoutResults(ws: seq<FacadeScopes.Write>) {
    forall i :: 0 <= i < |ws| && ws[i].SaveCheckpoint? ==> !ws[i].withResults
  }

  lemma ExecGrows(s: Store, run: RunId, w: FacadeScopes.Write)
    requires w.SaveCheckpoint? ==> !w.withResults
    ensures FacadeScopes.Exec(s, run, w).Ok? ==> PlainGrowth(s, FacadeScopes.Exec(s, run, w).value)
  {
    hide LatestSeq, FacadeScopes.ChangedPlan, FacadeScopes.ChangedContext;
  }

  lemma {:induction false} ExecAllGrows(s: Store, run: RunId, ws: seq<FacadeScopes.Write>)
    requires WithoutResults(ws)
    ensures FacadeScopes.ExecAll(s, run, ws).Ok? ==> PlainGrowth(s, FacadeScopes.ExecAll(s, run, ws).value)
    decreases ws
  {
    hide FacadeScopes.Exec;
    if ws != [] && FacadeScopes.Exec(s, run, ws[0]).Ok? {
      ExecGrows(s, run, ws[0]);
      ExecAllGrows(FacadeScopes.Exec(s, run, ws[0]).value, run, ws[1..]);
    }
  }

  lemma ThenNone(a: seq<FacadeScopes.Write>, cfg: Config, ck: string)
    requires WithoutResults(a)
    ensures WithoutResults(a + FacadeScopes.Automatic(cfg, ck))
    ensures WithoutResults(a + FacadeScopes.Follows() + FacadeScopes.Automatic(cfg, ck))
  {
  }

  lemma PartsHoldNone(s: Store, op: Op, now: real, e: Event, id: ExecId, r: ExternalResult, clear: bool)
    ensures op.OpStart? ==> WithoutResults(FacadeScopes.StartPart(op))
    ensures op.OpIntent? ==> WithoutResults(FacadeScopes.IntentPart(s, op, now))
    ensures WithoutResults(FacadeScopes.ResultPart(e, id, r, clear))
      && WithoutResults(FacadeScopes.RecordPair(e, id, r))
  {
  }

  lemma PlanWritesHoldNone(s: Store, op: Op, now: real, cfg: Config, ck: string)
    requires op.OpMessage? || op.OpLlmTurn? || op.OpAdvance? || op.OpSetActive?
    ensures WithoutResults(FacadeScopes.Writes(s, op, now, cfg, ck))
  {
  }

  lemma CallWritesHoldNone(s: Store, op: Op, now: real, cfg: Config, ck: string)
    requires op.OpDispatch? || op.OpResult?
    ensures WithoutResults(FacadeScopes.Writes(s, op, now, cfg, ck))
  {
    hide ResultRecordOf, ResolveStatus, ShouldClear, Allowed, FacadeScopes.Automatic, FacadeScopes.ResultPart,
         FacadeScopes.RecordPair;
    if op.OpDispatch? {
      if op.id in s.records {
        var e, r :=
          DispatchRecorded(op.id, s.records[op.id].tool), s.records[op.id].(status := Dispatched, updatedAt := now);
        PartsHoldNone(s, op, now, e, op.id, r, false);
        ThenNone(FacadeScopes.RecordPair(e, op.id, r), cfg, ck);
      }
    } else {
      var record := ResultRecordOf(Lookup(s.records, op.id), op.run, op.args, now);
      if record.Ok? {
        var r := record.value;
        var e := ResultRecorded(op.id, r.result, r.status, r.tool, r.op, r.item, r.response.Some?, r.error);
        PartsHoldNone(s, op, now, e, op.id, r, ShouldClear(op.args));
        ThenNone(FacadeScopes.ResultPart(e, op.id, r, ShouldClear(op.args)), cfg, ck);
      }
    }
  }

  lemma StartWritesHoldNone(s: Store, op: Op, now: real, cfg: Config, ck: string)
    requires op.OpStart? || op.OpIntent?
    ensures WithoutResults(FacadeScopes.Writes(s, op, now, cfg, ck))
  {
    var r := IntentRecord("", "", "", READ, map[], now);
    PartsHoldNone(s, op, now, RunStarted(0, 0), "", r, false);
    hide IntentExists, FacadeScopes.Automatic, FacadeScopes.Follows, FacadeScopes.StartPart, FacadeScopes.IntentPart;
    ThenNone(if op.OpStart? then FacadeScopes.StartPart(op) else FacadeScopes.IntentPart(s, op, now), cfg, ck);
  }

  lemma WritesHoldNone(s: Store, op: Op, now: real, cfg: Config, ck: string)
    requires !op.OpCheckpoint?
    ensures WithoutResults(FacadeScopes.Writes(s, op, now, cfg, ck))
  {
    hide FacadeScopes.Writes, WithoutResults;
    if op.OpStart? || op.OpIntent? { StartWritesHoldNone(s, op, now, cfg, ck); }
    else if op.OpDispatch? || op.OpResult? { CallWritesHoldNone(s, op, now, cfg, ck); }
    else { PlanWritesHoldNone(s, op, now, cfg, ck); }
  }

  lemma CheckpointSays(s: Store, run: RunId, ck: string, kind: string, withResults: bool)
    requires AllResultsSay(s) && Statuses.Traced(s, true)
    ensures AllResultsSay(WriteCheckpoint(s, run, ck, kind, withResults))
  {
    hide EventsOf, Statuses.Trace, Statuses.IsPath;
    var t, last := WriteCheckpoint(s, run, ck, kind, withResults), LatestSeq(s.log, run);
    if last > 0 {
      var c := Checkpoint(ck, run, last, kind, Lookup(s.plans, run), Lookup(s.contexts, run),
                          ResultsIf(s, run, withResults));
      Rebuild.UpToLatest(s.log, run);
      forall id | c.results.Some? ensures ResultSays(EventsOf(s.log[..last], run), c.results.value, id) {
        assert Statuses.Matches(EventsOf(s.log, run), s.records, run, id, true);
      }
      assert ResultsSay(s.log, c);
      var u := s.(checkpoints := s.checkpoints + [c]);
      assert AllResultsSay(u);
      hide ResultsSay;
      GrowthKeeps(u, t);
    }
  }

  lemma PerformSays(s: Store, op: Op, now: real, cfg: Config, ck: string)
    requires AllResultsSay(s) && Statuses.Traced(s, true)
    ensures var r := Perform(s, op, now, cfg, ck); r.Ok? ==> AllResultsSay(r.value)
  {
    hide AllResultsSay, Statuses.Traced, WriteCheckpoint, FacadeScopes.ExecAll, FacadeScopes.Writes;
    if op.OpCheckpoint? {
      CheckpointSays(s, op.run, ck, op.kind, op.withResults);
    } else {
      hide Perform;
      var ws := FacadeScopes.Writes(s, op, now, cfg, ck);
      FacadeScopes.WritesPerform(s, op, now, cfg, ck);
      WritesHoldNone(s, op, now, cfg, ck);
      ExecAllGrows(s, op.run, ws);
      var t := FacadeScopes.ExecAll(s, op.run, ws);
      if t.Ok? { GrowthKeeps(s, t.value); }
    }
  }

  /** After every history, every checkpoint that holds executions holds exactly those that the log of its run knew at
      its sequence number, each in the status that the log gave it. */
  lemma {:induction false} CheckpointsHoldTheLog(ops: seq<Stamped>, cfg: Config)
    requires cfg.dedup
    ensures AllResultsSay(RunOps(EMPTY, ops, cfg))
  {
    hide Perform;
    if ops != [] {
      hide AllResultsSay, Statuses.Traced;
      var rest, c := ops[..|ops| - 1], ops[|ops| - 1];
      CheckpointsHoldTheLog(rest, cfg);
      History.HistorySound(rest, cfg);
      PerformSays(RunOps(EMPTY, rest, cfg), c.op, c.now, cfg, c.ck);
    }
  }
}
