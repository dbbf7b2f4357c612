/** The commit verifier of the mock target: proof by execution id, and a fallback on the visible state. */
module TargetVerifier {
  import opened Prelude
  import opened Json
  import opened Models
  import Recovery
  import Target

  function LevelText(l: Target.Level): string {
    match l
    case Legacy => "legacy"
    case Idempotent => "idempotent"
    case Rifl => "rifl"
    case Distinguishable => "queryable_distinguishable"
    case Counter => "queryable_counter"
  }

  /** The stored record of a commit, as the verifier sees it. Time stamps are not modelled. */
  function EntryPayload(e: Target.Entry): Payload {
    var base: Payload := map["api_level" := JStr(LevelText(e.level)), "execution_id" := JStr(e.id),
                             "action_name" := JStr(e.action), "payload" := JObj(e.payload),
                             "receipt" := Target.ReceiptJson(e.receipt)];
    if e.level.Rifl? then base["result" := JObj(map["receipt" := Target.ReceiptJson(e.receipt)])] else base
  }

  /** `get_action_by_execution_id`. */
  function LookUpAction(d: Target.Data, id: ExecId): Option<Target.Entry> {
    if id in d.actionLog then Some(d.actionLog[id])
    else if id in d.idempotent then Some(d.idempotent[id])
    else if id in d.rifl then Some(d.rifl[id])
    else None
  }

  /** The payload of a write request, and the value it would set. */
  function WrittenPayload(args: Payload): Option<Payload> {
    if "payload" !in args then Some(map[]) else if args["payload"].JObj? then Some(args["payload"].fields) else None
  }

  /** The visible state already is what this write would make it. */
  predicate AlreadyVisible(d: Target.Data, args: Payload) {
    var p := WrittenPayload(args);
    && p.Some? && "key" in p.value && p.value["key"].JStr? && p.value["key"].s != ""
    && Target.Get(p.value, "value", JNull) != JNull
    && Target.Get(d.domain, p.value["key"].s, JNull) == Target.Get(p.value, "value", JNull)
  }

  /** `MockTargetVerifier.verify_write`. */
  function VerifyWrite(d: Target.Data, id: ExecId, tool: string, args: Payload): Recovery.Verdict {
    if id == "" then Recovery.Raises
    else
      match LookUpAction(d, id)
      case Some(e) => Recovery.Verdict(Some(true), Some(EntryPayload(e)), Some(Target.ReceiptJson(e.receipt).fields))
      case None =>
        if AlreadyVisible(d, args) then
          var p := WrittenPayload(args).value;
          Recovery.Verdict(Some(true),
                           Some(map["payload" := JObj(p), "observed_value" := p["value"], "tool_name" := JStr(tool)]),
                           None)
        else Recovery.Verdict(Some(false), None, None)
  }

  // ---------------------------------------------------------------- what an answer shows

  /** What the verifier shows of a commit: who it was, what it did, and its receipt. */
  predicate Shows(p: Payload, x: Target.Entry) {
    && p.Keys == {"api_level", "execution_id", "action_name", "payload", "receipt"}
         + (if x.level.Rifl? then {"result"} else {})
    && p["execution_id"] == JStr(x.id) && p["action_name"] == JStr(x.action) && p["payload"] == JObj(x.payload)
    && p["api_level"] == JStr(LevelText(x.level)) && p["receipt"].JObj? && ReceiptShown(p["receipt"].fields, x.receipt)
    && (x.level.Rifl? ==> p["result"] == JObj(map["receipt" := p["receipt"]]))
  }

  predicate ReceiptShown(p: Payload, r: Target.Receipt) {
    && p.Keys == {"execution_id", "action_id"} && p["action_id"] == JStr(r.actionId)
    && p["execution_id"] == if r.executionId.Some? then JStr(r.executionId.value) else JNull
  }

  /** A commit found by its id comes with its record and its receipt, from the action log first; a guess from the
      visible state comes without a receipt, absence with nothing. */
  lemma VerdictShows(d: Target.Data, id: ExecId, tool: string, args: Payload)
    requires id != ""
    ensures var v := VerifyWrite(d, id, tool, args);
      && v.Verdict? && v.committed.Some?
      && (id in d.actionLog || id in d.idempotent || id in d.rifl ==>
            && v.committed == Some(true) && v.record.Some? && v.receipt.Some?
            && var x := if id in d.actionLog then d.actionLog[id] else if id in d.idempotent then d.idempotent[id]
              else d.rifl[id];
               Shows(v.record.value, x) && ReceiptShown(v.receipt.value, x.receipt))
      && (!(id in d.actionLog || id in d.idempotent || id in d.rifl) ==>
            v.receipt.None? && (v.committed == Some(true) <==> AlreadyVisible(d, args)))
      && (v.committed == Some(false) ==> v.record.None?)
  {
    if LookUpAction(d, id).Some? { EntryShown(LookUpAction(d, id).value); }
    hide EntryPayload, Shows, AlreadyVisible, WrittenPayload, Target.ReceiptJson, ReceiptShown;
  }

  lemma EntryShown(x: Target.Entry)
    ensures Shows(EntryPayload(x), x) && Target.ReceiptJson(x.receipt).JObj?
    ensures ReceiptShown(Target.ReceiptJson(x.receipt).fields, x.receipt)
  {
    ReceiptIsShown(x.receipt);
    hide Target.ReceiptJson, ReceiptShown, LevelText;
    assert |"api_level"| == 9 && |"execution_id"| == 12 && |"action_name"| == 11 && |"payload"| == 7;
    assert |"receipt"| == 7 && |"result"| == 6 && "payload"[0] != "receipt"[0];
    assert EntryPayload(x).Keys ==
      {"api_level", "execution_id", "action_name", "payload", "receipt"} + (if x.level.Rifl? then {"result"} else {});
  }

  lemma ReceiptIsShown(r: Target.Receipt)
    ensures Target.ReceiptJson(r).JObj? && ReceiptShown(Target.ReceiptJson(r).fields, r)
  {
    assert |"execution_id"| == 12 && |"action_id"| == 9;
    assert Target.ReceiptJson(r).fields.Keys == {"execution_id", "action_id"};
  }

  /** What counts as visible: the target holds the value, not null, that the write would set. */
  lemma VisibleMeans(d: Target.Data, args: Payload)
    ensures AlreadyVisible(d, args) <==>
      && "payload" in args && args["payload"].JObj?
      && var p := args["payload"].fields;
         && "key" in p && p["key"].JStr? && p["key"].s != "" && "value" in p && p["value"] != JNull
         && p["key"].s in d.domain && d.domain[p["key"].s] == p["value"]
  {
  }

  // ---------------------------------------------------------------- what an answer proves

  /** The request could have put something under this id: as its execution id or as its action id. */
  predicate Names(r: Target.Request, id: ExecId) {
    || r.receipt.actionId == id
    || ((r.LegacyReq? || r.IdemReq? || r.RiflReq?) && r.id == id)
  }

  lemma NewNames(d: Target.Data, r: Target.Request, id: ExecId, fp: Target.FloatPlus)
    requires LookUpAction(d, id).None?
    ensures LookUpAction(Target.Serve(d, r, fp).0, id).Some? ==> Target.Commits(d, r, fp) && Names(r, id)
    ensures Target.Keyed(r) && r.id == id && Target.Commits(d, r, fp) ==>
      LookUpAction(Target.Serve(d, r, fp).0, id).Some?
  {
    hide Target.ApplyToDomain, Target.Plus;
  }

  lemma ActionsStay(d: Target.Data, r: Target.Request, id: ExecId, fp: Target.FloatPlus)
    requires LookUpAction(d, id).Some?
    ensures LookUpAction(Target.Serve(d, r, fp).0, id).Some?
  {
    hide Target.ApplyToDomain, Target.Plus;
  }

  lemma {:induction false} ActionsStayAll(d: Target.Data, rs: seq<Target.Request>, id: ExecId, fp: Target.FloatPlus)
    requires LookUpAction(d, id).Some?
    ensures LookUpAction(Target.ServeAll(d, rs, fp), id).Some?
    decreases rs
  {
    hide Target.Serve, LookUpAction;
    if rs != [] {
      ActionsStay(d, rs[0], id, fp);
      ActionsStayAll(Target.Serve(d, rs[0], fp).0, rs[1..], id, fp);
    }
  }

  lemma {:induction false} FoundMeansCommitted(d: Target.Data, rs: seq<Target.Request>, id: ExecId,
                                               fp: Target.FloatPlus)
    requires LookUpAction(d, id).None?
    ensures LookUpAction(Target.ServeAll(d, rs, fp), id).Some? ==>
      exists r :: r in Target.Committed(d, rs, fp) && Names(r, id)
    ensures LookUpAction(Target.ServeAll(d, rs, fp), id).None? ==>
      forall r :: r in Target.Committed(d, rs, fp) && Target.Keyed(r) ==> r.id != id
    decreases rs
  {
    hide Target.Serve, LookUpAction, Names;
    if rs != [] {
      var e := Target.Serve(d, rs[0], fp).0;
      NewNames(d, rs[0], id, fp);
      if LookUpAction(e, id).None? {
        FoundMeansCommitted(e, rs[1..], id, fp);
      } else {
        ActionsStayAll(e, rs[1..], id, fp);
        assert rs[0] in Target.Committed(d, rs, fp);
      }
    }
  }

  /** Against a target that did not know the id: "absent" proves that no keyed write of that id was committed, and
      "committed" proves that one that names it was, unless the visible state already matched. */
  lemma VerdictProves(d: Target.Data, rs: seq<Target.Request>, id: ExecId, tool: string, args: Payload,
                      fp: Target.FloatPlus)
    requires id != "" && LookUpAction(d, id).None?
    ensures var now := Target.ServeAll(d, rs, fp); var v := VerifyWrite(now, id, tool, args);
      && v.Verdict? && v.committed.Some?
      && (v.committed == Some(false) ==> forall r :: r in Target.Committed(d, rs, fp) && Target.Keyed(r) ==> r.id != id)
      && (v.committed == Some(true) && !AlreadyVisible(now, args) ==>
          exists r :: r in Target.Committed(d, rs, fp) && Names(r, id))
  {
    hide Target.Committed, Target.ServeAll, AlreadyVisible, EntryPayload;
    FoundMeansCommitted(d, rs, id, fp);
  }

  /** The fallback can be wrong: a target that was never called says "committed" when another write left the same
      value. */
  lemma FallbackMisleads(d: Target.Data, id: ExecId, tool: string, key: string, value: Json)
    requires id != "" && key != "" && value != JNull && LookUpAction(d, id).None?
    requires key in d.domain && d.domain[key] == value
    ensures var args: Payload := map["action_name" := JStr("set_value"),
                                     "payload" := JObj(map["key" := JStr(key), "value" := value])];
      VerifyWrite(d, id, tool, args).Verdict? && VerifyWrite(d, id, tool, args).committed == Some(true)
  {
    var fields: Payload := map["key" := JStr(key), "value" := value];
    var args: Payload := map["action_name" := JStr("set_value"), "payload" := JObj(fields)];
    assert args["payload"].fields == fields;
  }
}
