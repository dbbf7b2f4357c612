/** The adapter that sends tool calls to the mock target and may lose one request or one response. */
module Adapter {
  import opened Prelude
  import opened Json
  import opened Models
  import Executor
  import Target

  const BAD_PAYLOAD := "payload must be an object"

  /** A read of the target: the query name and its payload. Reads change nothing. */
  type Query = (Target.Data, Payload) -> Outcome<Payload>

  /** One write or one answer may be lost, once: `LostResponse` after the write, `LostRequest` before it. */
  datatype Fault = NoFault | LostResponse | LostRequest

  /** The target as the adapter sees it, and whether its one fault has been spent. */
  datatype Channel = Channel(data: Target.Data, spent: bool)

  const REQUEST_LOST := "request lost in flight; target never observed the write"
  const RESPONSE_LOST := "write may have committed before the local process observed the response"

  function ActionText(v: Json): string { if v.JStr? then v.s else Print(v) }

  /** The request an `apply-action` call stands for. */
  function ActionRequest(args: Payload, id: ExecId, receipt: Target.Receipt): Outcome<Target.Request> {
    if "action_name" !in args then Err("action_name")
    else if "payload" in args && !args["payload"].JObj? then Err(BAD_PAYLOAD)
    else Ok(Target.IdemReq(ActionText(args["action_name"]), if "payload" in args then args["payload"].fields else map[],
                           id, receipt))
  }

  lemma RequestIsKeyed(args: Payload, id: ExecId, receipt: Target.Receipt)
    ensures var r := ActionRequest(args, id, receipt);
      r.Ok? ==> r.value == Target.IdemReq(r.value.action, r.value.payload, id, receipt)
  {
  }

  function ReplyPayload(reply: Target.Reply, r: Target.Request, id: Option<ExecId>): Payload
    requires r.IdemReq?
  {
    map["receipt" := Target.ReceiptJson(reply.receipt),
        "idempotent_hit" := JBool(reply.hit),
        "api_level" := JStr("idempotent"),
        "applied_action" := JObj(map["action_name" := JStr(r.action), "payload" := JObj(r.payload),
                                     "execution_id" := if id.Some? then JStr(id.value) else JNull])]
  }

  /** `spare` is the uuid used when no id is forwarded. */
  function Invoke(ch: Channel, fault: Fault, query: Query, fp: Target.FloatPlus, tool: string, args: Payload,
                  id: Option<ExecId>, spare: ExecId, receipt: Target.Receipt): (Channel, Executor.Answer) {
    if tool == "query-state" then
      (match query(ch.data, args)
       case Ok(p) => (ch, Executor.Answered(p))
       case Err(e) => (ch, Executor.Failure(e)))
    else if tool == "apply-action" then
      if fault.LostRequest? && !ch.spent then (ch.(spent := true), Executor.Ambiguous(REQUEST_LOST))
      else
        match ActionRequest(args, if id.Some? && id.value != "" then id.value else spare, receipt)
        case Err(e) => (ch, Executor.Failure(e))
        case Ok(r) =>
          var (data, reply) := Target.Serve(ch.data, r, fp);
          match reply
          case Err(e) => (ch.(data := data), Executor.Failure(e))
          case Ok(answer) =>
            if fault.LostResponse? && !ch.spent
            then (Channel(data, true), Executor.Ambiguous(RESPONSE_LOST))
            else (ch.(data := data), Executor.Answered(ReplyPayload(answer, r, id)))
    else (ch, Executor.Failure("unsupported tool"))
  }

  /** The payload shows the receipt that the target remembers under this id, whether the request was a repeat, and what
      was applied. */
  predicate ShowsReceipt(p: Payload, d: Target.Data, used: ExecId, id: Option<ExecId>, hit: bool) {
    && used in d.idempotent && p.Keys == {"receipt", "idempotent_hit", "api_level", "applied_action"}
    && p["receipt"].JObj? && p["receipt"].fields.Keys == {"execution_id", "action_id"}
    && p["receipt"].fields["action_id"] == JStr(d.idempotent[used].receipt.actionId)
    && p["receipt"].fields["execution_id"] == TextOrNull(d.idempotent[used].receipt.executionId)
    && p["idempotent_hit"] == JBool(hit) && p["api_level"] == JStr("idempotent")
    && p["applied_action"] == JObj(map["action_name" := JStr(d.idempotent[used].action),
                                       "payload" := JObj(d.idempotent[used].payload),
                                       "execution_id" := TextOrNull(id)])
  }

  function TextOrNull(t: Option<string>): Json { if t.Some? then JStr(t.value) else JNull }

  /** What each answer to a write tells: an answered one is remembered by the target and shows its receipt, one whose
      response was lost is remembered all the same, a failed one or a lost request left no trace. */
  lemma WriteTells(ch: Channel, fault: Fault, query: Query, fp: Target.FloatPlus, args: Payload, id: Option<ExecId>,
                   spare: ExecId, receipt: Target.Receipt)
    ensures var (after, a) := Invoke(ch, fault, query, fp, "apply-action", args, id, spare, receipt);
      var used := if id.Some? && id.value != "" then id.value else spare;
      var lostRequest, lostResponse := fault.LostRequest? && !ch.spent, fault.LostResponse? && !ch.spent;
      match a
      case Answered(p) =>
        !lostRequest && !lostResponse && after.spent == ch.spent
        && ShowsReceipt(p, after.data, used, id, used in ch.data.idempotent)
      case Ambiguous(_) =>
        after.spent && if lostRequest then after.data == ch.data else lostResponse && used in after.data.idempotent
      case Failure(_) => after == ch
  {
    assert "apply-action" != "query-state" by { assert |"apply-action"| == 12 && |"query-state"| == 11; }
    hide Target.Serve, ActionRequest, ReplyPayload, ShowsReceipt;
    var used := if id.Some? && id.value != "" then id.value else spare;
    var r := ActionRequest(args, used, receipt);
    if r.Ok? {
      RequestIsKeyed(args, used, receipt);
      ReplyRemembered(ch.data, r.value, fp);
      var (data, reply) := Target.Serve(ch.data, r.value, fp);
      if reply.Ok? { ReplyShows(reply.value, r.value, id, data, used in ch.data.idempotent); }
    }
  }

  lemma ReplyShows(reply: Target.Reply, r: Target.Request, id: Option<ExecId>, d: Target.Data, hit: bool)
    requires r.IdemReq? && r.id in d.idempotent && d.idempotent[r.id].receipt == reply.receipt && (reply.hit <==> hit)
    requires d.idempotent[r.id].action == r.action && d.idempotent[r.id].payload == r.payload
    ensures ShowsReceipt(ReplyPayload(reply, r, id), d, r.id, id, hit)
  {
    assert |"receipt"| == 7 && |"idempotent_hit"| == 14 && |"api_level"| == 9 && |"applied_action"| == 14;
    assert "idempotent_hit"[0] != "applied_action"[0] && |"execution_id"| == 12 && |"action_id"| == 9;
    var p := ReplyPayload(reply, r, id);
    assert p.Keys == {"receipt", "idempotent_hit", "api_level", "applied_action"};
    assert p["receipt"].fields.Keys == {"execution_id", "action_id"};
  }

  /** An accepted request is remembered as it was sent. */
  lemma ReplyRemembered(d: Target.Data, r: Target.Request, fp: Target.FloatPlus)
    requires r.IdemReq?
    ensures var (e, reply) := Target.Serve(d, r, fp);
      && (reply.Err? ==> e == d)
      && (reply.Ok? ==>
            && r.id in e.idempotent && e.idempotent[r.id].receipt == reply.value.receipt
            && e.idempotent[r.id].action == r.action && e.idempotent[r.id].payload == r.payload
            && (reply.value.hit <==> r.id in d.idempotent))
  {
    hide Target.ApplyToDomain;
  }

  /** A query is answered by the target and changes nothing; another tool is refused. */
  lemma ReadTells(ch: Channel, fault: Fault, query: Query, fp: Target.FloatPlus, tool: string, args: Payload,
                  id: Option<ExecId>, spare: ExecId, receipt: Target.Receipt)
    requires tool != "apply-action"
    ensures var (after, a) := Invoke(ch, fault, query, fp, tool, args, id, spare, receipt);
      && after == ch
      && if tool != "query-state" then a.Failure?
         else match query(ch.data, args)
              case Ok(p) => a == Executor.Answered(p)
              case Err(e) => a == Executor.Failure(e)
  {
  }

  class ReplayToolAdapter {
    const target: Target.MockTargetService
    const fault: Fault
    const query: Query
    var spent: bool

    constructor (target: Target.MockTargetService, fault: Fault, query: Query)
      ensures this.target == target && this.fault == fault && this.query == query && !spent
    {
      this.target, this.fault, this.query, this.spent := target, fault, query, false;
    }

    function State(): Channel
      reads this, target
    {
      Channel(target.data, spent)
    }

    method InvokeTool(tool: string, args: Payload, id: Option<ExecId>, spare: ExecId, receipt: Target.Receipt)
      returns (answer: Executor.Answer)
      modifies this, target
      ensures (State(), answer) == Invoke(old(State()), fault, query, target.fp, tool, args, id, spare, receipt)
    {
      hide Target.Serve, ActionRequest, ReplyPayload;
      RequestIsKeyed(args, if id.Some? && id.value != "" then id.value else spare, receipt);
      if tool == "query-state" {
        var p := query(target.data, args);
        if p.Ok? { return Executor.Answered(p.value); }
        return Executor.Failure(p.reason);
      }
      if tool != "apply-action" { return Executor.Failure("unsupported tool"); }
      if fault.LostRequest? && !spent {
        spent := true;
        return Executor.Ambiguous(REQUEST_LOST);
      }
      var r := ActionRequest(args, if id.Some? && id.value != "" then id.value else spare, receipt);
      if r.Err? { return Executor.Failure(r.reason); }
      var reply := target.ApplyIdempotent(r.value.action, r.value.payload, r.value.id, receipt);
      if reply.Err? { return Executor.Failure(reply.reason); }
      if fault.LostResponse? && !spent {
        spent := true;
        return Executor.Ambiguous(RESPONSE_LOST);
      }
      return Executor.Answered(ReplyPayload(reply.value, r.value, id));
    }
  }
}
