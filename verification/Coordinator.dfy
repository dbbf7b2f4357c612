/** The recovery coordinator as an object: one pass is a loop of durable writes with callbacks in between. */
module Coordinator {
  import opened Prelude
  import opened Json
  import opened Models
  import opened Facade
  import opened Recovery
  import Effects
  import Logging
  import PassResults
  import Timeouts

  /** The decision about one candidate once a probe, if any, has been taken into account. */
  function FinalDecision(p: Pass, id: ExecId, r: Option<ExternalResult>): Decision {
    match r
    case None => Decision(p.run, id, Handoff, None, None)
    case Some(record) =>
      match Finding(p, id, record)
      case None => Decide(p.run, id, record, p.now, p.wait, p.floatOf)
      case Some(true) => Decision(p.run, id, MarkCommitted, Some(VerifiedCommitted), None)
      case Some(false) => Decision(p.run, id, Replay, Some(VerifiedNotFound), None)
  }

  function RecordOf(s: Store, run: RunId, id: ExecId): Option<ExternalResult> {
    if id in s.records && s.records[id].run == run then Some(s.records[id]) else None
  }

  function Decisions(p: Pass, s: Store, ids: seq<ExecId>): (r: seq<Decision>)
    ensures |r| == |ids|
  {
    seq(|ids|, i requires 0 <= i < |ids| => FinalDecision(p, ids[i], RecordOf(s, p.run, ids[i])))
  }

  function ActionText(a: Action): string {
    match a
    case ResumeWaiting => "resume_waiting"
    case Replay => "replay"
    case Handoff => "handoff_retry_or_abandon"
    case MarkCommitted => "mark_committed"
  }

  /** The key under which a handoff is emitted once; `iso` prints a deadline. */
  function HandoffKey(d: Decision, iso: real -> string): string {
    d.run + ":" + d.id + ":" + ActionText(d.action) + ":"
      + (if d.status.Some? then StatusText(d.status.value) else "none")
      + ":" + (if d.waitUntil.Some? then iso(d.waitUntil.value) else "none")
  }

  predicate KeysDistinct(ds: seq<Decision>, iso: real -> string) {
    forall i, j :: 0 <= i < j < |ds| ==> HandoffKey(ds[i], iso) != HandoffKey(ds[j], iso)
  }

  predicate HasKey(ds: seq<Decision>, key: string, iso: real -> string) {
    exists i :: 0 <= i < |ds| && HandoffKey(ds[i], iso) == key
  }

  lemma KeyAppended(ds: seq<Decision>, d: Decision, key: string, iso: real -> string)
    ensures HasKey(ds + [d], key, iso) <==> HasKey(ds, key, iso) || HandoffKey(d, iso) == key
  {
    if HasKey(ds, key, iso) {
      var i :| 0 <= i < |ds| && HandoffKey(ds[i], iso) == key;
      assert (ds + [d])[i] == ds[i];
    }
    assert (ds + [d])[|ds|] == d;
  }

  /** The callbacks after these decisions: every handoff whose key was not called before. */
  function Called(handoffs: seq<Decision>, ds: seq<Decision>, iso: real -> string): seq<Decision> {
    if ds == [] then handoffs
    else CalledOne(Called(handoffs, ds[..|ds| - 1], iso), ds[|ds| - 1], iso)
  }

  function CalledOne(handoffs: seq<Decision>, d: Decision, iso: real -> string): seq<Decision> {
    if d.action == Handoff && !HasKey(handoffs, HandoffKey(d, iso), iso) then handoffs + [d] else handoffs
  }

  class RecoveryCoordinator {
    const service: Logging.LoggingService
    const wait: real
    const floatOf: Timeouts.FloatOf
    const verifier: Option<Verifier>
    const iso: real -> string
    const notify: bool
    var emitted: set<string>
    /** The calls of the handoff callback so far. */
    var handoffs: seq<Decision>

    /** The emitted keys are those of the callbacks made, and no key was called twice. */
    ghost predicate Valid()
      reads this
    {
      && KeysDistinct(handoffs, iso)
      && (forall k :: k in emitted <==> HasKey(handoffs, k, iso))
      && (forall i :: 0 <= i < |handoffs| ==> handoffs[i].action == Handoff)
    }

    constructor (service: Logging.LoggingService, wait: real, floatOf: Timeouts.FloatOf, verifier: Option<Verifier>,
                 iso: real -> string, notify: bool)
      ensures Valid() && this.service == service && this.wait == wait && this.floatOf == floatOf
        && this.verifier == verifier
      ensures this.iso == iso && this.notify == notify && handoffs == []
    {
      this.service, this.wait, this.floatOf, this.verifier, this.iso, this.notify :=
        service, wait, floatOf, verifier, iso, notify;
      emitted, handoffs := {}, [];
    }

    function PassAt(run: RunId, now: real): Pass {
      Pass(run, now, wait, floatOf, verifier, service.cfg)
    }

    /** Every handoff among these decisions has been called. */
    predicate AllEmitted(ds: seq<Decision>)
      reads this
    {
      forall i :: 0 <= i < |ds| && ds[i].action == Handoff ==> HandoffKey(ds[i], iso) in emitted
    }

    method EmitHandoffIfNeeded(d: Decision)
      requires Valid() && d.action == Handoff
      modifies this
      ensures Valid() && old(handoffs) <= handoffs && |handoffs| <= |old(handoffs)| + 1
      ensures notify ==> HandoffKey(d, iso) in emitted
      ensures handoffs == if notify then CalledOne(old(handoffs), d, iso) else old(handoffs)
      ensures old(emitted) <= emitted
    {
      if !notify { return; }
      var key := HandoffKey(d, iso);
      if key in emitted { return; }
      forall k ensures HasKey(handoffs + [d], k, iso) <==> HasKey(handoffs, k, iso) || key == k {
        KeyAppended(handoffs, d, k, iso);
      }
      assert !HasKey(handoffs, key, iso);
      emitted := emitted + {key};
      handoffs := handoffs + [d];
    }

    /** `_verify_ambiguous_write`: the refined decision and the record after the durable write. */
    method VerifyAmbiguousWrite(p: Pass, w: World, id: ExecId, r: ExternalResult, fallback: Decision)
      returns (d: Decision, record: ExternalResult)
      requires p == PassAt(p.run, p.now) && p.verifier.Some?
      requires NeedsProbe(p, r) && fallback == Decide(p.run, id, r, p.now, p.wait, p.floatOf)
      requires RecordOf(service.State(), p.run, id) == Some(r) && p.run in service.contexts
      modifies service
      ensures service.State() == SettleOne(p, w, old(service.State()), id)
      ensures d == FinalDecision(p, id, Some(r))
      ensures RecordOf(service.State(), p.run, id) == Some(record)
    {
      var verdict := p.verifier.value(id, r.tool, r.request);
      ghost var s := service.State();
      SettleEffect(p, w, s, id);
      hide RecordToolResult, Deadline, VerifiedPayload, Effects.OnlyRun;
      if verdict.Raises? || verdict.committed.None? { return fallback, r; }
      SettledArgs(p, id, r, w.clock(|service.log|));
      SettledIsFound(p, id, r, w.clock(|service.log|));
      var args := if verdict.committed.value then CommittedArgs(VerifiedPayload(verdict)) else ABSENT_ARGS;
      var ok := service.RecordToolResult(p.run, id, args, w.clock(|service.log|), w.uuid(|service.log|));
      record := service.records[id];
      if verdict.committed.value {
        d := Decision(p.run, id, MarkCommitted, Some(VerifiedCommitted), None);
      } else {
        d := Decision(p.run, id, Replay, Some(VerifiedNotFound), None);
      }
    }

    method ReconcileToolMessage(p: Pass, w: World, id: ExecId, record: ExternalResult)
      requires p == PassAt(p.run, p.now)
      requires RecordOf(service.State(), p.run, id) == Some(record) && IsCommitted(record.status)
      modifies service
      ensures service.State() == ReconcileOne(p, w, old(service.State()), id)
    {
      hide RecordContextMessage, Print;
      if record.response.None? { return; }
      if p.run !in service.contexts { return; }
      var messages := service.contexts[p.run].messages;
      for i := 0 to |messages|
        invariant forall j :: 0 <= j < i ==> !(messages[j].role == "tool" && messages[j].toolCallId == Some(id))
      {
        if messages[i].role == "tool" && messages[i].toolCallId == Some(id) { return; }
      }
      var ok := service.RecordContextMessage(p.run, ToolMessage(id, record), w.uuid(|service.log|));
    }

    /** The body of the loop for one candidate and the record that was read for it at the start of the pass. */
    method RecoverCandidate(p: Pass, w: World, id: ExecId, read: Option<ExternalResult>) returns (decision: Decision)
      requires Valid() && p == PassAt(p.run, p.now) && p.run in service.contexts
      requires read == RecordOf(service.State(), p.run, id)
      modifies this, service
      ensures Valid() && old(handoffs) <= handoffs && old(emitted) <= emitted
      ensures service.State() == ReconcileOne(p, w, SettleOne(p, w, old(service.State()), id), id)
      ensures decision == FinalDecision(p, id, read)
      ensures notify && decision.action == Handoff ==> HandoffKey(decision, iso) in emitted
      ensures handoffs == if notify then CalledOne(old(handoffs), decision, iso) else old(handoffs)
      ensures forall ds :: old(AllEmitted(ds)) && notify ==> AllEmitted(ds + [decision])
    {
      hide Valid, HandoffKey, HasKey, Lacks, SettleOne, ReconcileOne;
      DecisionMeets(p, w, service.State(), id);
      if read.None? {
        decision := Decision(p.run, id, Handoff, None, None);
        EmitHandoffIfNeeded(decision);
        return;
      }
      var record := read.value;
      decision := Decide(p.run, id, record, p.now, p.wait, p.floatOf);
      if decision.action == Handoff && verifier.Some? && record.op == WRITE && record.status == Dispatched {
        decision, record := VerifyAmbiguousWrite(p, w, id, record, decision);
      }
      if decision.action == MarkCommitted {
        ReconcileToolMessage(p, w, id, record);
      } else if decision.action == Handoff {
        EmitHandoffIfNeeded(decision);
      }
    }

    /** `recover_run`. The records are read once, at the start of the pass. */
    method RecoverRun(run: RunId, now: real, w: World) returns (decisions: seq<Decision>)
      requires Valid()
      modifies this, service
      ensures Valid() && old(handoffs) <= handoffs
      ensures service.State() == Recovery.RecoverRun(PassAt(run, now), w, old(service.State()))
      ensures decisions == if run in old(service.contexts)
        then Decisions(PassAt(run, now), old(service.State()), Sorted(Candidates(old(service.State()), run))) else []
      ensures notify ==> AllEmitted(decisions)
      ensures handoffs == if notify then Called(old(handoffs), decisions, iso) else old(handoffs)
      ensures run in old(service.contexts) ==>
        Answered(PassAt(run, now), old(service.State()), service.State(), decisions)
    {
      decisions := [];
      if run !in service.contexts { return; }
      hide Valid, HandoffKey, Decisions, Steps, SettleOne, ReconcileOne, FinalDecision, Candidates, Sorted, AllEmitted,
           PassAt, Called, CalledOne, Answered;
      ghost var s0 := service.State();
      var p := PassAt(run, now);
      var records := map id | id in service.records && service.records[id].run == run :: service.records[id];
      var candidates := Sorted(Candidates(service.State(), run));
      NoSteps(p, w, s0, candidates);
      for i := 0 to |candidates|
        invariant Valid() && old(handoffs) <= handoffs
        invariant service.State() == Steps(p, w, s0, candidates, 2 * i) && run in service.contexts
        invariant decisions == Decisions(p, s0, candidates[..i])
        invariant notify ==> AllEmitted(decisions)
        invariant handoffs == if notify then Called(old(handoffs), decisions, iso) else old(handoffs)
      {
        var id := candidates[i];
        var read := if id in records then Some(records[id]) else None;
        NextCandidate(p, w, s0, candidates, i);
        var decision := RecoverCandidate(p, w, id, read);
        DecisionsGrow(p, s0, candidates, i);
        CalledAppend(old(handoffs), decisions, decision, iso);
        decisions := decisions + [decision];
      }
      assert candidates[..|candidates|] == candidates;
      PassIsAnswered(p, w, s0);
    }
  }

  lemma CalledAppend(handoffs: seq<Decision>, ds: seq<Decision>, d: Decision, iso: real -> string)
    ensures Called(handoffs, ds + [d], iso) == CalledOne(Called(handoffs, ds, iso), d, iso)
    ensures Called(handoffs, [], iso) == handoffs
  {
    assert (ds + [d])[..|ds|] == ds;
    hide CalledOne;
  }

  /** What the decisions of a pass say about the records it leaves behind: one decision for every candidate in order of
      the ids, each true of the record as it is now, and each record as the verifier's answer makes it. */
  ghost predicate Answered(p: Pass, before: Store, after: Store, ds: seq<Decision>) {
    && PassResults.OnePerCandidate(before, p.run, ds)
    && (forall i :: 0 <= i < |ds| ==> PassResults.Answers(p, ds[i].id, RecordOf(after, p.run, ds[i].id), ds[i]))
    && (forall id :: id in before.records && before.records[id].run == p.run ==>
          id in after.records && PassResults.Judged(p, id, before.records[id], after.records[id]))
  }

  lemma DecisionAnswers(p: Pass, id: ExecId, r: ExternalResult, x: ExternalResult)
    requires PassResults.Judged(p, id, r, x) && r.run == p.run
    ensures PassResults.Answers(p, id, Some(x), FinalDecision(p, id, Some(r)))
  {
    hide PassResults.Observed, Timeouts.WaitSeconds;
  }

  lemma MissingAnswers(p: Pass, id: ExecId)
    ensures PassResults.Answers(p, id, None, FinalDecision(p, id, None))
  {
  }

  lemma {:induction false} PassIsAnswered(p: Pass, w: World, s: Store)
    requires p.run in s.contexts
    ensures Answered(p, s, Recovery.RecoverRun(p, w, s), Decisions(p, s, Sorted(Candidates(s, p.run))))
  {
    var ids, t := Sorted(Candidates(s, p.run)), Recovery.RecoverRun(p, w, s);
    var ds := Decisions(p, s, ids);
    forall id | id in s.records && s.records[id].run == p.run
      ensures id in t.records && PassResults.Judged(p, id, s.records[id], t.records[id])
    {
      PassResults.PassJudges(p, w, s, id);
    }
    forall i | 0 <= i < |ds|
      ensures ds[i].id == ids[i] && PassResults.Answers(p, ds[i].id, RecordOf(t, p.run, ds[i].id), ds[i])
    {
      DecisionAt(p, w, s, ids[i]);
    }
    hide PassResults.Judged, PassResults.Answers, Recovery.RecoverRun, FinalDecision;
    OneEach(s, p.run, ids, ds);
  }

  lemma DecisionAt(p: Pass, w: World, s: Store, id: ExecId)
    requires p.run in s.contexts
    ensures var d := FinalDecision(p, id, RecordOf(s, p.run, id));
      d.id == id && PassResults.Answers(p, id, RecordOf(Recovery.RecoverRun(p, w, s), p.run, id), d)
  {
    var t := Recovery.RecoverRun(p, w, s);
    hide FinalDecision, PassResults.Judged, PassResults.Answers, Recovery.RecoverRun;
    if id in s.records && s.records[id].run == p.run {
      PassResults.PassJudges(p, w, s, id);
      JudgedRun(p, id, s.records[id], t.records[id]);
      DecisionAnswers(p, id, s.records[id], t.records[id]);
    } else {
      StaysMissing(p, w, s, id);
      MissingAnswers(p, id);
    }
    AnswersNames(p, id, RecordOf(t, p.run, id), FinalDecision(p, id, RecordOf(s, p.run, id)));
  }

  lemma JudgedRun(p: Pass, id: ExecId, r: ExternalResult, x: ExternalResult)
    requires PassResults.Judged(p, id, r, x)
    ensures x.run == r.run
  {
  }

  lemma AnswersNames(p: Pass, id: ExecId, x: Option<ExternalResult>, d: Decision)
    requires PassResults.Answers(p, id, x, d)
    ensures d.id == id
  {
  }

  /** A pass makes no records and moves none. */
  lemma StaysMissing(p: Pass, w: World, s: Store, id: ExecId)
    requires p.run in s.contexts && RecordOf(s, p.run, id).None?
    ensures RecordOf(Recovery.RecoverRun(p, w, s), p.run, id).None?
  {
    hide Steps;
    var ids := Sorted(Candidates(s, p.run));
    StepsMissing(p, w, s, ids, 2 * |ids|, id);
  }

  lemma {:induction false} StepsMissing(p: Pass, w: World, s: Store, ids: seq<ExecId>, k: nat, id: ExecId)
    requires p.run in s.contexts && k <= 2 * |ids| && RecordOf(s, p.run, id).None?
    ensures RecordOf(Steps(p, w, s, ids, k), p.run, id).None?
  {
    hide HalfStep;
    if k > 0 {
      StepsMissing(p, w, s, ids, k - 1, id);
      StillKnown(p, w, s, ids, k - 1);
      HalfMissing(p, w, Steps(p, w, s, ids, k - 1), ids, k - 1, id);
    }
  }

  lemma HalfMissing(p: Pass, w: World, s: Store, ids: seq<ExecId>, j: nat, id: ExecId)
    requires p.run in s.contexts && j < 2 * |ids| && RecordOf(s, p.run, id).None?
    ensures RecordOf(HalfStep(p, w, s, ids, j), p.run, id).None?
  {
    hide SettledRecord, Finding, RecordToolResult, RecordContextMessage, HasToolMessage, ToolMessage, Effects.OnlyRun;
    if j % 2 == 0 { SettleEffect(p, w, s, ids[j / 2]); } else { ReconcileEffect(p, w, s, ids[j / 2]); }
  }

  lemma OneEach(s: Store, run: RunId, ids: seq<ExecId>, ds: seq<Decision>)
    requires ids == Sorted(Candidates(s, run)) && |ds| == |ids| && forall i :: 0 <= i < |ds| ==> ds[i].id == ids[i]
    ensures PassResults.OnePerCandidate(s, run, ds)
  {
    hide Sorted;
    forall id ensures (exists i :: 0 <= i < |ds| && ds[i].id == id) <==> PassResults.Concerned(s, run, id) {
      assert PassResults.Concerned(s, run, id) <==> id in Candidates(s, run);
      if id in ids {
        var i :| 0 <= i < |ids| && ids[i] == id;
        assert ds[i].id == id;
      }
    }
  }

  lemma {:induction false} DecisionMeets(p: Pass, w: World, s: Store, id: ExecId)
    requires p.run in s.contexts
    ensures var t := SettleOne(p, w, s, id); var read := RecordOf(s, p.run, id); var after := RecordOf(t, p.run, id);
      && (read.None? ==> t == s)
      && (read.Some? && Finding(p, id, read.value).None? ==> t == s)
      && (read.Some? <==> after.Some?)
      && (after.Some? ==> (IsCommitted(after.value.status) <==> FinalDecision(p, id, read).action == MarkCommitted))
      && (after.None? || !IsCommitted(after.value.status) ==> ReconcileOne(p, w, t, id) == t)
  {
    SettleEffect(p, w, s, id);
    var read := RecordOf(s, p.run, id);
    if read.Some? {
      SettledIsFound(p, id, read.value, w.clock(|s.log|));
      if Finding(p, id, read.value).Some? { SettledArgs(p, id, read.value, w.clock(|s.log|)); }
    }
    hide SettleOne, VerifiedPayload, Deadline, RecordContextMessage;
  }

  lemma DecisionsGrow(p: Pass, s: Store, ids: seq<ExecId>, i: nat)
    requires i < |ids|
    ensures Decisions(p, s, ids[..i + 1]) ==
      Decisions(p, s, ids[..i]) + [FinalDecision(p, ids[i], RecordOf(s, p.run, ids[i]))]
  {
  }

  lemma NoSteps(p: Pass, w: World, s: Store, ids: seq<ExecId>)
    ensures Steps(p, w, s, ids, 0) == s
  {
  }

  /** What the loop needs to know before it turns to candidate `i`. */
  lemma NextCandidate(p: Pass, w: World, s: Store, ids: seq<ExecId>, i: nat)
    requires p.run in s.contexts && NoDup(ids) && i < |ids|
    ensures RecordOf(Steps(p, w, s, ids, 2 * i), p.run, ids[i]) == RecordOf(s, p.run, ids[i])
    ensures Steps(p, w, s, ids, 2 * (i + 1)) ==
      ReconcileOne(p, w, SettleOne(p, w, Steps(p, w, s, ids, 2 * i), ids[i]), ids[i])
    ensures p.run in Steps(p, w, s, ids, 2 * (i + 1)).contexts
  {
    hide *;
    StaleIsCurrent(p, w, s, ids, i);
    TwoHalfSteps(p, w, s, ids, i);
    StillKnown(p, w, s, ids, 2 * i + 2);
  }

  lemma TwoHalfSteps(p: Pass, w: World, s: Store, ids: seq<ExecId>, i: nat)
    requires i < |ids|
    ensures Steps(p, w, s, ids, 2 * i + 2) ==
      ReconcileOne(p, w, SettleOne(p, w, Steps(p, w, s, ids, 2 * i), ids[i]), ids[i])
  {
    hide SettleOne, ReconcileOne;
    assert Steps(p, w, s, ids, 2 * i + 1) == SettleOne(p, w, Steps(p, w, s, ids, 2 * i), ids[i]);
  }

  /** The record read at the start is still the record when its turn comes. */
  lemma StaleIsCurrent(p: Pass, w: World, s: Store, ids: seq<ExecId>, i: nat)
    requires p.run in s.contexts && NoDup(ids) && i < |ids|
    ensures RecordOf(Steps(p, w, s, ids, 2 * i), p.run, ids[i]) == RecordOf(s, p.run, ids[i])
  {
    hide Steps;
    assert ids[i] !in ids[..i];
    RecordUntouched(p, w, s, ids, 2 * i, ids[i]);
  }

  lemma {:induction false} RecordUntouched(p: Pass, w: World, s: Store, ids: seq<ExecId>, k: nat, id: ExecId)
    requires p.run in s.contexts && k <= 2 * |ids| && id !in ids[..(k + 1) / 2]
    ensures Lookup(Steps(p, w, s, ids, k).records, id) == Lookup(s.records, id)
  {
    hide HalfStep;
    if k > 0 {
      var n := (k - 1) / 2;
      assert ids[..n + 1] == ids[..n] + [ids[n]];
      assert ids[n] != id && id !in ids[..k / 2];
      RecordUntouched(p, w, s, ids, k - 1, id);
      StillKnown(p, w, s, ids, k - 1);
      OtherUntouched(p, w, Steps(p, w, s, ids, k - 1), ids, k - 1, id);
    }
  }

  lemma OtherUntouched(p: Pass, w: World, s: Store, ids: seq<ExecId>, j: nat, id: ExecId)
    requires p.run in s.contexts && j < 2 * |ids| && ids[j / 2] != id
    ensures Lookup(HalfStep(p, w, s, ids, j).records, id) == Lookup(s.records, id)
  {
    hide SettledRecord, Finding, RecordToolResult, RecordContextMessage, HasToolMessage, ToolMessage, Effects.OnlyRun;
    if j % 2 == 0 { SettleEffect(p, w, s, ids[j / 2]); } else { ReconcileEffect(p, w, s, ids[j / 2]); }
  }
}
