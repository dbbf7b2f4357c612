/** Which decisions reach the handoff callback: with ids that hold no colon, exactly the handoffs, once each. */
module Handoffs {
  import opened Models
  import opened Recovery
  import opened Coordinator
  import opened Facade
  import PassResults

  /** A text up to its first colon. */
  lemma {:induction false} FirstColon(a: string, x: string, b: string, y: string)
    requires ':' !in a && ':' !in b && a + ":" + x == b + ":" + y
    ensures a == b && x == y
  {
    var s, t := a + ":" + x, b + ":" + y;
    assert s[|a|] == ':' && t[|b|] == ':';
    assert forall i :: 0 <= i < |b| ==> t[i] == b[i] && b[i] in b;
    assert forall i :: 0 <= i < |a| ==> s[i] == a[i] && a[i] in a;
    assert a == s[..|a|] && b == t[..|b|] && x == s[|a| + 1..] && y == t[|b| + 1..];
  }

  lemma SamePrefix(a: string, x: string, y: string)
    requires a + x == a + y
    ensures x == y
  {
    assert x == (a + x)[|a|..] && y == (a + y)[|a|..];
  }

  /** How the status and the deadline of a decision are written in its key. */
  function StatusPart(d: Decision): string { if d.status.Some? then StatusText(d.status.value) else "none" }

  function DeadlinePart(d: Decision, iso: real -> string): string {
    if d.waitUntil.Some? then iso(d.waitUntil.value) else "none"
  }

  lemma StatusPartTells(d: Decision, e: Decision)
    ensures ':' !in StatusPart(d)
    ensures StatusPart(d) == StatusPart(e) ==> d.status == e.status
  {
    assert |"intent_logged"| == 13 && |"dispatched"| == 10 && |"acked"| == 5 && |"failed"| == 6 && |"none"| == 4;
    assert "verified_committed"[9] == 'c' && "verified_not_found"[9] == 'n' && |"verified_committed"| == 18;
  }

  lemma KeyParts(d: Decision, iso: real -> string)
    requires d.action == Handoff
    ensures HandoffKey(d, iso) ==
      (d.run + ":") + (d.id + ":" + ("handoff_retry_or_abandon:" + (StatusPart(d) + ":" + DeadlinePart(d, iso))))
  {
    hide StatusText;
    var h, st, at := ActionText(d.action), StatusPart(d), DeadlinePart(d, iso);
    assert "handoff_retry_or_abandon:" == h + ":";
    assert HandoffKey(d, iso) == d.run + ":" + d.id + ":" + h + ":" + st + ":" + at;
  }

  /** Within a run the key of a handoff names its execution, its status and its deadline. */
  lemma {:induction false} KeyIdentifies(d: Decision, e: Decision, iso: real -> string)
    requires d.run == e.run && d.action == Handoff && e.action == Handoff && ':' !in d.id && ':' !in e.id
    requires HandoffKey(d, iso) == HandoffKey(e, iso)
    ensures d.id == e.id && d.status == e.status && DeadlinePart(d, iso) == DeadlinePart(e, iso)
  {
    KeyParts(d, iso);
    KeyParts(e, iso);
    StatusPartTells(d, e);
    StatusPartTells(e, d);
    hide HandoffKey, StatusPart, DeadlinePart;
    var x, y := StatusPart(d) + ":" + DeadlinePart(d, iso), StatusPart(e) + ":" + DeadlinePart(e, iso);
    var h := "handoff_retry_or_abandon:";
    SamePrefix(d.run + ":", d.id + ":" + (h + x), e.id + ":" + (h + y));
    FirstColon(d.id, h + x, e.id, h + y);
    SamePrefix(h, x, y);
    FirstColon(StatusPart(d), DeadlinePart(d, iso), StatusPart(e), DeadlinePart(e, iso));
  }

  /** The handoffs among these decisions, in their order. */
  function HandoffsOf(ds: seq<Decision>): (r: seq<Decision>)
    ensures forall d :: d in r <==> d in ds && d.action == Handoff
  {
    if ds == [] then []
    else
      var before, d := ds[..|ds| - 1], ds[|ds| - 1];
      assert ds == before + [d];
      HandoffsOf(before) + if d.action == Handoff then [d] else []
  }

  /** Decisions of one run about different executions, whose ids hold no colon. */
  predicate OneRun(ds: seq<Decision>) {
    && (forall i, j :: 0 <= i < j < |ds| ==> ds[i].run == ds[j].run && ds[i].id != ds[j].id)
    && (forall i :: 0 <= i < |ds| ==> ':' !in ds[i].id)
  }

  /** A coordinator that made no callback before calls every handoff, in order, and nothing else. */
  lemma {:induction false} FreshCallsAll(ds: seq<Decision>, iso: real -> string)
    requires OneRun(ds)
    ensures Called([], ds, iso) == HandoffsOf(ds)
  {
    hide HandoffKey, HasKey;
    if ds != [] {
      FreshCallsAll(ds[..|ds| - 1], iso);
      if ds[|ds| - 1].action == Handoff { NewKey(ds, iso); }
    }
  }

  lemma NewKey(ds: seq<Decision>, iso: real -> string)
    requires ds != [] && OneRun(ds) && ds[|ds| - 1].action == Handoff
    ensures !HasKey(HandoffsOf(ds[..|ds| - 1]), HandoffKey(ds[|ds| - 1], iso), iso)
  {
    hide HandoffKey;
    var calls, d := HandoffsOf(ds[..|ds| - 1]), ds[|ds| - 1];
    forall i | 0 <= i < |calls| ensures HandoffKey(calls[i], iso) != HandoffKey(d, iso) {
      assert calls[i] in ds[..|ds| - 1];
      var j :| 0 <= j < |ds| - 1 && ds[j] == calls[i];
      if HandoffKey(calls[i], iso) == HandoffKey(d, iso) { KeyIdentifies(calls[i], d, iso); }
    }
  }

  /** The callbacks of the first pass of a coordinator are its handoffs: the executions that failed, those whose window
      is over without a verdict, and the ids without a record. */
  lemma {:induction false} FirstPassCalls(p: Pass, before: Store, after: Store, ds: seq<Decision>, iso: real -> string)
    requires Answered(p, before, after, ds) && forall i :: 0 <= i < |ds| ==> ':' !in ds[i].id
    ensures Called([], ds, iso) == HandoffsOf(ds)
    ensures forall d :: d in Called([], ds, iso) <==> d in ds && d.action == Handoff
  {
    hide PassResults.Judged;
    forall i | 0 <= i < |ds| ensures ds[i].run == p.run {
      assert PassResults.Answers(p, ds[i].id, RecordOf(after, p.run, ds[i].id), ds[i]);
    }
    FreshCallsAll(ds, iso);
  }
}
