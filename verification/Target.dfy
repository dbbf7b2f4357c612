/** The mock remote service: one JSON document with several logical maps, and write APIs of different strength. */
module Target {
  import opened Prelude
  import opened Json

  const BAD_DELTA := "delta must be numeric"
  const BAD_VALUE := "existing value is not numeric"
  const BAD_APPLIED := "_applied_actions must be a list"
  const NO_ACTION_NAME := "action_name is required"
  const NO_EXECUTION_ID := "execution_id is required"
  const NO_COUNTER_NAME := "counter_name is required"
  const BAD_COUNTER := "existing counter is not numeric"

  type Payload = map<string, Json>

  datatype Level = Legacy | Idempotent | Rifl | Distinguishable | Counter

  /** `actionId` and `committedAt` come from outside: a fresh uuid and the wall clock. */
  datatype Receipt = Receipt(executionId: Option<string>, actionId: string, committedAt: string)

  /** Only legacy records list several receipts and count their attempts; the others read as one of each. */
  datatype Entry = Entry(
    level: Level,
    id: string,
    action: string,
    payload: Payload,
    receipt: Receipt,
    receipts: seq<Receipt>,
    attempts: nat)

  datatype Entity = Entity(key: string, present: bool, value: Json, payload: Payload, lastAction: string,
                           lastReceipt: Receipt)

  datatype Stats = Stats(total: nat, idempotent: nat, rifl: nat, distinguishable: nat, counter: nat)

  /** The whole store file. Loading it gives a private copy, saving it replaces the file. */
  datatype Data = Data(
    stats: Stats,
    actionLog: map<string, Entry>,
    domain: map<string, Json>,
    idempotent: map<string, Entry>,
    rifl: map<string, Entry>,
    objects: map<string, Entity>,
    history: map<string, seq<Entry>>,
    counters: map<string, Json>)

  const EMPTY_STATS := Stats(0, 0, 0, 0, 0)

  /** The addition of two Python numbers one of which is a float. */
  type FloatPlus = (Json, Json) -> Json

  predicate Numeric(v: Json) { v.JInt? || v.JFloat? || v.JBool? }

  function AsInt(v: Json): int
    requires v.JInt? || v.JBool?
  {
    if v.JInt? then v.n else if v.b then 1 else 0
  }

  function Plus(a: Json, b: Json, fp: FloatPlus): Json
    requires Numeric(a) && Numeric(b)
  {
    if a.JFloat? || b.JFloat? then fp(a, b) else JInt(AsInt(a) + AsInt(b))
  }

  function Get(p: Payload, key: string, default: Json): Json {
    if key in p then p[key] else default
  }

  /** `require_str(payload, key)`. */
  function RequireStr(p: Payload, key: string): Outcome<string> {
    if key in p && p[key].JStr? && p[key].s != "" then Ok(p[key].s) else Err(key + " must be a non-empty string")
  }

  function ReceiptJson(r: Receipt): Json {
    JObj(map["execution_id" := if r.executionId.Some? then JStr(r.executionId.value) else JNull,
             "action_id" := JStr(r.actionId)])
  }

  const APPLIED := "_applied_actions"

  /** The effect of one action on the free-form state, or the reason it is refused. */
  function ApplyToDomain(domain: map<string, Json>, action: string, payload: Payload, receipt: Receipt, fp: FloatPlus)
    : Outcome<map<string, Json>>
  {
    if action == "set_value" || action == "delete_value" || action == "increment_value" then
      match RequireStr(payload, "key")
      case Err(e) => Err(e)
      case Ok(key) =>
        if action == "set_value" then Ok(domain[key := Get(payload, "value", JNull)])
        else if action == "delete_value" then Ok(domain - {key})
        else
          var delta, current := Get(payload, "delta", JInt(1)), Get(domain, key, JInt(0));
          if !Numeric(delta) then Err(BAD_DELTA)
          else if !Numeric(current) then Err(BAD_VALUE)
          else Ok(domain[key := Plus(current, delta, fp)])
    else
      var applied := Get(domain, APPLIED, JArr([]));
      if !applied.JArr? then Err(BAD_APPLIED)
      else
        var note :=
          JObj(map["action_name" := JStr(action), "payload" := JObj(payload), "receipt" := ReceiptJson(receipt)]);
        Ok(domain[APPLIED := JArr(applied.items + [note])])
  }

  // ---------------------------------------------------------------- what an action means

  /** The key that an action works on, if the payload names one. */
  predicate NamesKey(payload: Payload, key: string) {
    key != "" && "key" in payload && payload["key"] == JStr(key)
  }

  function ValueOf(payload: Payload): Json { if "value" in payload then payload["value"] else JNull }

  function DeltaOf(payload: Payload): Json { if "delta" in payload then payload["delta"] else JInt(1) }

  function NumberAt(state: map<string, Json>, key: string): Json { if key in state then state[key] else JInt(0) }

  /** Booleans count as 0 and 1. */
  function IntOf(v: Json): Option<int> {
    match v
    case JInt(n) => Some(n)
    case JBool(b) => Some(if b then 1 else 0)
    case _ => None
  }

  /** Integers are added; as soon as a float takes part, the sum is that of the float addition. */
  predicate SumIs(sum: Json, current: Json, delta: Json, fp: FloatPlus) {
    if IntOf(current).Some? && IntOf(delta).Some? then sum == JInt(IntOf(current).value + IntOf(delta).value)
    else sum == fp(current, delta)
  }

  predicate Addable(v: Json) { IntOf(v).Some? || v.JFloat? }

  /** The two states agree on every key but this one. */
  ghost predicate ElsewhereSame(a: map<string, Json>, b: map<string, Json>, key: string) {
    forall k :: k != key ==> (k in a <==> k in b) && (k in a && k in b ==> b[k] == a[k])
  }

  /** The note that an action without a meaning of its own leaves. */
  predicate NoteOf(note: Json, action: string, payload: Payload, receipt: Receipt) {
    && note.JObj? && note.fields.Keys == {"action_name", "payload", "receipt"}
    && note.fields["action_name"] == JStr(action) && note.fields["payload"] == JObj(payload)
    && note.fields["receipt"].JObj? && note.fields["receipt"].fields.Keys == {"execution_id", "action_id"}
    && note.fields["receipt"].fields["action_id"] == JStr(receipt.actionId)
    && note.fields["receipt"].fields["execution_id"] ==
         if receipt.executionId.Some? then JStr(receipt.executionId.value) else JNull
  }

  function NotesIn(state: map<string, Json>): Json {
    if "_applied_actions" in state then state["_applied_actions"] else JArr([])
  }

  predicate OneMoreNote(a: map<string, Json>, b: map<string, Json>, action: string, payload: Payload,
                        receipt: Receipt) {
    && NotesIn(a).JArr? && "_applied_actions" in b && b["_applied_actions"].JArr?
    && var before, after := NotesIn(a).items, b["_applied_actions"].items;
       |after| == |before| + 1 && before <= after && NoteOf(after[|before|], action, payload, receipt)
  }

  /** What one action makes of the free-form state. */
  ghost predicate Changed(a: map<string, Json>, b: map<string, Json>, action: string, payload: Payload,
                          receipt: Receipt,
                    fp: FloatPlus) {
    if action == "set_value" || action == "delete_value" || action == "increment_value" then
      && "key" in payload && payload["key"].JStr? && NamesKey(payload, payload["key"].s)
      && var key := payload["key"].s;
         && ElsewhereSame(a, b, key)
         && if action == "set_value" then key in b && b[key] == ValueOf(payload)
            else if action == "delete_value" then key !in b
            else key in b && SumIs(b[key], NumberAt(a, key), DeltaOf(payload), fp)
    else ElsewhereSame(a, b, "_applied_actions") && OneMoreNote(a, b, action, payload, receipt)
  }

  /** When an action is refused. */
  predicate Refused(a: map<string, Json>, action: string, payload: Payload) {
    if action == "set_value" || action == "delete_value" || action == "increment_value" then
      || !("key" in payload && payload["key"].JStr? && payload["key"].s != "")
      || (action == "increment_value"
          && (!Addable(DeltaOf(payload)) || !Addable(NumberAt(a, payload["key"].s))))
    else !NotesIn(a).JArr?
  }

  lemma AppliedChanges(a: map<string, Json>, action: string, payload: Payload, receipt: Receipt, fp: FloatPlus)
    ensures var r := ApplyToDomain(a, action, payload, receipt, fp);
      && (r.Err? <==> Refused(a, action, payload))
      && (r.Ok? ==> Changed(a, r.value, action, payload, receipt, fp))
  {
    assert |"action_name"| == 11 && |"payload"| == 7 && |"receipt"| == 7 && "payload"[0] != "receipt"[0];
    assert |"execution_id"| == 12 && |"action_id"| == 9;
    assert APPLIED == "_applied_actions";
  }

  /** What the queryable APIs answer beside the receipt. */
  datatype Detail = Plain | Object(queryKey: string, entity: Entity) | Sum(name: string, value: Json)

  datatype Reply = Reply(receipt: Receipt, hit: bool, level: Level, detail: Detail)

  // ---------------------------------------------------------------- requests

  datatype Request =
    | LegacyReq(action: string, payload: Payload, id: string, receipt: Receipt)
    | IdemReq(action: string, payload: Payload, id: string, receipt: Receipt)
    | RiflReq(action: string, payload: Payload, id: string, receipt: Receipt)
    | ObjectReq(action: string, payload: Payload, receipt: Receipt)
    | CounterReq(name: string, delta: Json, receipt: Receipt)

  predicate Keyed(r: Request) { r.IdemReq? || r.RiflReq? }

  function LevelOf(r: Request): Level {
    match r
    case LegacyReq(_, _, _, _) => Legacy
    case IdemReq(_, _, _, _) => Idempotent
    case RiflReq(_, _, _, _) => Rifl
    case ObjectReq(_, _, _) => Distinguishable
    case CounterReq(_, _, _) => Counter
  }

  function EntryOf(r: Request): Entry
    requires Keyed(r)
  {
    Entry(LevelOf(r), r.id, r.action, r.payload, r.receipt, [r.receipt], 1)
  }

  function Count(s: Stats, level: Level): Stats {
    match level
    case Legacy => s.(total := s.total + 1)
    case Idempotent => s.(total := s.total + 1, idempotent := s.idempotent + 1)
    case Rifl => s.(total := s.total + 1, rifl := s.rifl + 1)
    case Distinguishable => s.(total := s.total + 1, distinguishable := s.distinguishable + 1)
    case Counter => s.(total := s.total + 1, counter := s.counter + 1)
  }

  /** The requests a keyed API has committed. */
  function Remembered(d: Data, level: Level): map<string, Entry> {
    if level == Rifl then d.rifl else d.idempotent
  }

  function ServeLegacy(d: Data, r: Request, fp: FloatPlus): (Data, Outcome<Reply>)
    requires r.LegacyReq?
  {
    if r.action == "" then (d, Err(NO_ACTION_NAME))
    else
      match ApplyToDomain(d.domain, r.action, r.payload, r.receipt, fp)
      case Err(e) => (d, Err(e))
      case Ok(domain) =>
        var (before, attempts) :=
          if r.id in d.actionLog then (d.actionLog[r.id].receipts, d.actionLog[r.id].attempts)
          else ([], 0);
        var entry := Entry(Legacy, r.id, r.action, r.payload, r.receipt, before + [r.receipt], attempts + 1);
        (d.(domain := domain, actionLog := d.actionLog[r.id := entry], stats := Count(d.stats, Legacy)),
         Ok(Reply(r.receipt, false, Legacy, Plain)))
  }

  /** The id was used before, with a different action or payload. */
  predicate Mismatched(d: Data, r: Request)
    requires Keyed(r)
  {
    var requests := Remembered(d, LevelOf(r));
    r.id in requests && (requests[r.id].action != r.action || requests[r.id].payload != r.payload)
  }

  /** Deduplicates by execution id and gives the original receipt on a repeat. */
  function ServeKeyed(d: Data, r: Request, fp: FloatPlus): (Data, Outcome<Reply>)
    requires Keyed(r)
  {
    var level, requests := LevelOf(r), Remembered(d, LevelOf(r));
    if r.action == "" then (d, Err(NO_ACTION_NAME))
    else if r.id == "" then (d, Err(NO_EXECUTION_ID))
    else if r.id in requests then
      if Mismatched(d, r) then (d, Err(MISMATCH))
      else (d, Ok(Reply(requests[r.id].receipt, true, level, Plain)))
    else
      match ApplyToDomain(d.domain, r.action, r.payload, r.receipt, fp)
      case Err(e) => (d, Err(e))
      case Ok(domain) =>
        var grown := requests[r.id := EntryOf(r)];
        (d.(domain := domain,
            idempotent := if level == Idempotent then grown else d.idempotent,
            rifl := if level == Rifl then grown else d.rifl,
            actionLog := d.actionLog[r.id := EntryOf(r)],
            stats := Count(d.stats, level)),
         Ok(Reply(r.receipt, false, level, Plain)))
  }

  const MISMATCH := "execution_id already used with a different action or payload"

  function ServeObject(d: Data, r: Request): (Data, Outcome<Reply>)
    requires r.ObjectReq?
  {
    if r.action == "" then (d, Err(NO_ACTION_NAME))
    else
      match RequireStr(r.payload, "key")
      case Err(e) => (d, Err(e))
      case Ok(key) =>
        var entity := if r.action == "delete_value" then Entity(key, false, JNull, map[], r.action, r.receipt)
                      else Entity(key, true, Get(r.payload, "value", JNull), r.payload, r.action, r.receipt);
        var entry := Entry(Distinguishable, r.receipt.actionId, r.action, r.payload, r.receipt, [r.receipt], 1);
        var past := if key in d.history then d.history[key] else [];
        (d.(objects := d.objects[key := entity], history := d.history[key := past + [entry]],
            actionLog := d.actionLog[r.receipt.actionId := entry], stats := Count(d.stats, Distinguishable)),
         Ok(Reply(r.receipt, false, Distinguishable, Object(key, entity))))
  }

  function ServeCounter(d: Data, r: Request, fp: FloatPlus): (Data, Outcome<Reply>)
    requires r.CounterReq?
  {
    if r.name == "" then (d, Err(NO_COUNTER_NAME))
    else if !Numeric(r.delta) then (d, Err(BAD_DELTA))
    else
      var current := Get(d.counters, r.name, JInt(0));
      if !Numeric(current) then (d, Err(BAD_COUNTER))
      else
        var sum := Plus(current, r.delta, fp);
        var entry := Entry(Counter, r.receipt.actionId, r.name, map["delta" := r.delta], r.receipt, [r.receipt], 1);
        (d.(counters := d.counters[r.name := sum],
            actionLog := d.actionLog[r.receipt.actionId := entry], stats := Count(d.stats, Counter)),
         Ok(Reply(r.receipt, false, Counter, Sum(r.name, sum))))
  }

  function Serve(d: Data, r: Request, fp: FloatPlus): (Data, Outcome<Reply>) {
    match r
    case LegacyReq(_, _, _, _) => ServeLegacy(d, r, fp)
    case IdemReq(_, _, _, _) => ServeKeyed(d, r, fp)
    case RiflReq(_, _, _, _) => ServeKeyed(d, r, fp)
    case ObjectReq(_, _, _) => ServeObject(d, r)
    case CounterReq(_, _, _) => ServeCounter(d, r, fp)
  }

  function ServeAll(d: Data, rs: seq<Request>, fp: FloatPlus): Data
    decreases rs
  {
    if rs == [] then d else ServeAll(Serve(d, rs[0], fp).0, rs[1..], fp)
  }

  // ---------------------------------------------------------------- the service object

  class MockTargetService {
    var data: Data
    const fp: FloatPlus

    constructor (data: Data, fp: FloatPlus)
      ensures this.data == data && this.fp == fp
    {
      this.data := data;
      this.fp := fp;
    }

    /** The in-place state change of one action, on a loaded copy. */
    static method Mutate(domain: map<string, Json>, action: string, payload: Payload, receipt: Receipt, fp: FloatPlus)
      returns (r: Outcome<map<string, Json>>)
      ensures r == ApplyToDomain(domain, action, payload, receipt, fp)
      ensures r.Err? <==> Refused(domain, action, payload)
      ensures r.Ok? ==> Changed(domain, r.value, action, payload, receipt, fp)
    {
      AppliedChanges(domain, action, payload, receipt, fp);
      hide Refused, Changed;
      var state := domain;
      if action == "set_value" || action == "delete_value" || action == "increment_value" {
        var key := RequireStr(payload, "key");
        if key.Err? { return Err(key.reason); }
        if action == "set_value" {
          state := state[key.value := Get(payload, "value", JNull)];
        } else if action == "delete_value" {
          state := state - {key.value};
        } else {
          var delta := Get(payload, "delta", JInt(1));
          if !Numeric(delta) { return Err(BAD_DELTA); }
          var current := Get(state, key.value, JInt(0));
          if !Numeric(current) { return Err(BAD_VALUE); }
          state := state[key.value := Plus(current, delta, fp)];
        }
        return Ok(state);
      }
      if APPLIED !in state { state := state[APPLIED := JArr([])]; }
      if !state[APPLIED].JArr? { return Err(BAD_APPLIED); }
      var note :=
        JObj(map["action_name" := JStr(action), "payload" := JObj(payload), "receipt" := ReceiptJson(receipt)]);
      state := state[APPLIED := JArr(state[APPLIED].items + [note])];
      assert state == domain[APPLIED := state[APPLIED]];
      return Ok(state);
    }

    /** `apply_action` of the non-idempotent service. */
    method ApplyLegacy(action: string, payload: Payload, id: string, receipt: Receipt) returns (reply: Outcome<Reply>)
      modifies this
      ensures (data, reply) == Serve(old(data), LegacyReq(action, payload, id, receipt), fp)
      ensures reply.Ok? && !reply.value.hit ==> Changed(old(data.domain), data.domain, action, payload, receipt, fp)
      ensures !(reply.Ok? && !reply.value.hit) ==> data == old(data)
    {
      if action == "" { return Err(NO_ACTION_NAME); }
      var loaded := data;
      var domain := Mutate(loaded.domain, action, payload, receipt, fp);
      if domain.Err? { return Err(domain.reason); }
      var receipts, attempts := [receipt], 1;
      if id in loaded.actionLog {
        receipts := loaded.actionLog[id].receipts + receipts;
        attempts := loaded.actionLog[id].attempts + 1;
      }
      assert [] + [receipt] == [receipt];
      loaded := loaded.(domain := domain.value);
      var entry := Entry(Legacy, id, action, payload, receipt, receipts, attempts);
      loaded := loaded.(actionLog := loaded.actionLog[id := entry]);
      loaded := loaded.(stats := Count(loaded.stats, Legacy));
      data := loaded;
      return Ok(Reply(receipt, false, Legacy, Plain));
    }

    /** `apply_idempotent_action`, also reached by `apply_action` in idempotent mode. */
    method ApplyIdempotent(action: string, payload: Payload, id: string, receipt: Receipt)
      returns (reply: Outcome<Reply>)
      modifies this
      ensures (data, reply) == Serve(old(data), IdemReq(action, payload, id, receipt), fp)
      ensures reply.Ok? && !reply.value.hit ==> Changed(old(data.domain), data.domain, action, payload, receipt, fp)
      ensures !(reply.Ok? && !reply.value.hit) ==> data == old(data)
    {
      if action == "" { return Err(NO_ACTION_NAME); }
      if id == "" { return Err(NO_EXECUTION_ID); }
      var loaded := data;
      if id in loaded.idempotent {
        var existing := loaded.idempotent[id];
        if existing.action != action || existing.payload != payload { return Err(MISMATCH); }
        return Ok(Reply(existing.receipt, true, Idempotent, Plain));
      }
      var domain := Mutate(loaded.domain, action, payload, receipt, fp);
      if domain.Err? { return Err(domain.reason); }
      var record := Entry(Idempotent, id, action, payload, receipt, [receipt], 1);
      loaded := loaded.(domain := domain.value);
      loaded := loaded.(idempotent := loaded.idempotent[id := record], actionLog := loaded.actionLog[id := record]);
      loaded := loaded.(stats := Count(loaded.stats, Idempotent));
      data := loaded;
      return Ok(Reply(receipt, false, Idempotent, Plain));
    }

    method ApplyRifl(action: string, payload: Payload, id: string, receipt: Receipt) returns (reply: Outcome<Reply>)
      modifies this
      ensures (data, reply) == Serve(old(data), RiflReq(action, payload, id, receipt), fp)
      ensures reply.Ok? && !reply.value.hit ==> Changed(old(data.domain), data.domain, action, payload, receipt, fp)
      ensures !(reply.Ok? && !reply.value.hit) ==> data == old(data)
    {
      if action == "" { return Err(NO_ACTION_NAME); }
      if id == "" { return Err(NO_EXECUTION_ID); }
      var loaded := data;
      if id in loaded.rifl {
        var existing := loaded.rifl[id];
        if existing.action != action || existing.payload != payload { return Err(MISMATCH); }
        return Ok(Reply(existing.receipt, true, Rifl, Plain));
      }
      var domain := Mutate(loaded.domain, action, payload, receipt, fp);
      if domain.Err? { return Err(domain.reason); }
      var record := Entry(Rifl, id, action, payload, receipt, [receipt], 1);
      loaded := loaded.(domain := domain.value);
      loaded := loaded.(rifl := loaded.rifl[id := record], actionLog := loaded.actionLog[id := record]);
      loaded := loaded.(stats := Count(loaded.stats, Rifl));
      data := loaded;
      return Ok(Reply(receipt, false, Rifl, Plain));
    }

    method ApplyDistinguishable(action: string, payload: Payload, receipt: Receipt) returns (reply: Outcome<Reply>)
      modifies this
      ensures (data, reply) == Serve(old(data), ObjectReq(action, payload, receipt), fp)
    {
      if action == "" { return Err(NO_ACTION_NAME); }
      var key := RequireStr(payload, "key");
      if key.Err? { return Err(key.reason); }
      var loaded := data;
      var entity := Entity(key.value, true, Get(payload, "value", JNull), payload, action, receipt);
      if action == "delete_value" { entity := Entity(key.value, false, JNull, map[], action, receipt); }
      var record := Entry(Distinguishable, receipt.actionId, action, payload, receipt, [receipt], 1);
      var past := if key.value in loaded.history then loaded.history[key.value] else [];
      loaded := loaded.(objects := loaded.objects[key.value := entity]);
      loaded := loaded.(history := loaded.history[key.value := past + [record]]);
      loaded := loaded.(actionLog := loaded.actionLog[receipt.actionId := record]);
      loaded := loaded.(stats := Count(loaded.stats, Distinguishable));
      data := loaded;
      return Ok(Reply(receipt, false, Distinguishable, Object(key.value, entity)));
    }

    method IncrementCounter(name: string, delta: Json, receipt: Receipt) returns (reply: Outcome<Reply>)
      modifies this
      ensures (data, reply) == Serve(old(data), CounterReq(name, delta, receipt), fp)
    {
      if name == "" { return Err(NO_COUNTER_NAME); }
      if !Numeric(delta) { return Err(BAD_DELTA); }
      var loaded := data;
      var current := Get(loaded.counters, name, JInt(0));
      if !Numeric(current) { return Err(BAD_COUNTER); }
      var sum := Plus(current, delta, fp);
      loaded := loaded.(counters := loaded.counters[name := sum]);
      var record := Entry(Counter, receipt.actionId, name, map["delta" := delta], receipt, [receipt], 1);
      loaded := loaded.(actionLog := loaded.actionLog[receipt.actionId := record],
                        stats := Count(loaded.stats, Counter));
      data := loaded;
      return Ok(Reply(receipt, false, Counter, Sum(name, sum)));
    }
  }

  // ---------------------------------------------------------------- deduplication refines the naive service

  /** The server a deduplicating one must look like: it remembers nothing and applies what it is sent. */
  function NaiveServe(domain: map<string, Json>, r: Request, fp: FloatPlus): Outcome<map<string, Json>> {
    if r.ObjectReq? || r.CounterReq? then Ok(domain)
    else ApplyToDomain(domain, r.action, r.payload, r.receipt, fp)
  }

  function NaiveServeAll(domain: map<string, Json>, rs: seq<Request>, fp: FloatPlus): Outcome<map<string, Json>>
    decreases rs
  {
    if rs == [] then Ok(domain)
    else
      match NaiveServe(domain, rs[0], fp)
      case Err(e) => Err(e)
      case Ok(next) => NaiveServeAll(next, rs[1..], fp)
  }

  predicate Commits(d: Data, r: Request, fp: FloatPlus) {
    var reply := Serve(d, r, fp).1;
    reply.Ok? && !reply.value.hit
  }

  /** The requests of a run that took effect, in order. */
  function Committed(d: Data, rs: seq<Request>, fp: FloatPlus): seq<Request>
    decreases rs
  {
    if rs == [] then []
    else
      var rest := Committed(Serve(d, rs[0], fp).0, rs[1..], fp);
      if Commits(d, rs[0], fp) then [rs[0]] + rest else rest
  }

  /** No two requests carry the same id at the same keyed API. */
  predicate DistinctKeys(rs: seq<Request>) {
    forall i, j :: 0 <= i < j < |rs| && Keyed(rs[i]) && Keyed(rs[j]) && LevelOf(rs[i]) == LevelOf(rs[j]) ==>
      rs[i].id != rs[j].id
  }

  predicate Taken(d: Data, r: Request) { Keyed(r) && r.id in Remembered(d, LevelOf(r)) }

  /** The memory of the keyed APIs: a commit there adds its own entry, and nothing else changes it. */
  lemma ServeMemory(d: Data, r: Request, fp: FloatPlus)
    ensures var e := Serve(d, r, fp).0;
      if Commits(d, r, fp) && Keyed(r)
      then r.id !in Remembered(d, LevelOf(r))
        && e.idempotent == (if r.IdemReq? then d.idempotent[r.id := EntryOf(r)] else d.idempotent)
        && e.rifl == (if r.RiflReq? then d.rifl[r.id := EntryOf(r)] else d.rifl)
      else e.idempotent == d.idempotent && e.rifl == d.rifl
    ensures Keyed(r) && Serve(d, r, fp).1.Ok? ==> Taken(Serve(d, r, fp).0, r)
    ensures Keyed(r) && Serve(d, r, fp).1.Ok? && Taken(d, r) ==> !Commits(d, r, fp)
    ensures Keyed(r) && Serve(d, r, fp).1.Ok? ==>
      Serve(d, r, fp).1.value.receipt == Remembered(Serve(d, r, fp).0, LevelOf(r))[r.id].receipt
  {
    hide ApplyToDomain, Plus, RequireStr, Get;
  }

  lemma ServeDomain(d: Data, r: Request, fp: FloatPlus)
    ensures var e := Serve(d, r, fp).0;
      if Commits(d, r, fp) then NaiveServe(d.domain, r, fp) == Ok(e.domain) && e.stats == Count(d.stats, LevelOf(r))
      else e == d
  {
    hide ApplyToDomain, Plus, RequireStr, Get;
  }

  /** One request: nothing changes unless it commits, a repeat is answered from memory, ids are never forgotten. */
  lemma ServeStep(d: Data, r: Request, fp: FloatPlus)
    ensures var (e, reply) := Serve(d, r, fp);
      && (!Commits(d, r, fp) ==> e == d)
      && (Commits(d, r, fp) ==>
          NaiveServe(d.domain, r, fp) == Ok(e.domain) && e.stats == Count(d.stats, LevelOf(r)) && !Taken(d, r))
      && (Keyed(r) && reply.Ok? ==> Taken(e, r) && reply.value.receipt == Remembered(e, LevelOf(r))[r.id].receipt)
      && (forall level, id :: id in Remembered(d, level) ==>
            id in Remembered(e, level) && Remembered(e, level)[id] == Remembered(d, level)[id])
      && (forall level, id :: id in Remembered(e, level) && id !in Remembered(d, level) ==>
            Commits(d, r, fp) && Keyed(r) && r.id == id && Remembered(d, LevelOf(r)) == Remembered(d, level))
  {
    ServeMemory(d, r, fp);
    ServeDomain(d, r, fp);
    hide Serve;
  }

  /** A keyed request takes effect exactly when its id is new and the naive server would accept it. */
  lemma FirstAcceptableCommits(d: Data, r: Request, fp: FloatPlus)
    requires Keyed(r) && r.action != "" && r.id != ""
    ensures Commits(d, r, fp) <==> !Taken(d, r) && NaiveServe(d.domain, r, fp).Ok?
  {
  }

  /** Every id that became known during a run belongs to one of the requests that took effect. */
  lemma {:induction false} NewIdsCommitted(d: Data, rs: seq<Request>, level: Level, id: string, fp: FloatPlus)
    requires level == Idempotent || level == Rifl
    requires id in Remembered(ServeAll(d, rs, fp), level) && id !in Remembered(d, level)
    ensures exists r :: r in Committed(d, rs, fp) && Keyed(r) && LevelOf(r) == level && r.id == id
    decreases rs
  {
    var e := Serve(d, rs[0], fp).0;
    ServeStep(d, rs[0], fp);
    if id in Remembered(e, level) {
      assert rs[0] in Committed(d, rs, fp);
      assert LevelOf(rs[0]) == level;
    } else {
      NewIdsCommitted(e, rs[1..], level, id, fp);
    }
  }

  /** What the requests that took effect have to do with the whole run. */
  predicate FaithfulHistory(d: Data, rs: seq<Request>, c: seq<Request>, last: Data, fp: FloatPlus) {
    && NaiveServeAll(d.domain, c, fp) == Ok(last.domain)
    && DistinctKeys(c)
    && (forall i :: 0 <= i < |c| ==> !Taken(d, c[i]) && c[i] in rs)
    && (forall i :: 0 <= i < |c| && Keyed(c[i]) ==> Taken(last, c[i]))
  }

  /** However requests repeat, the final state is that of the naive server given only the requests that took effect;
      these were all sent, never repeat an id, and leave their ids behind. */
  lemma {:induction false} DedupRefinesNaive(d: Data, rs: seq<Request>, fp: FloatPlus)
    ensures FaithfulHistory(d, rs, Committed(d, rs, fp), ServeAll(d, rs, fp), fp)
    decreases rs
  {
    if rs != [] {
      var e := Serve(d, rs[0], fp).0;
      DedupRefinesNaive(e, rs[1..], fp);
      MemoryGrows(e, rs[1..], fp);
      ServeStep(d, rs[0], fp);
      HistoryCons(d, rs, e, Committed(e, rs[1..], fp), ServeAll(e, rs[1..], fp), fp);
    }
  }

  lemma HistoryCons(d: Data, rs: seq<Request>, e: Data, c: seq<Request>, last: Data, fp: FloatPlus)
    requires rs != [] && e == Serve(d, rs[0], fp).0 && FaithfulHistory(e, rs[1..], c, last, fp)
    requires forall level, id :: id in Remembered(e, level) ==> id in Remembered(last, level)
    ensures FaithfulHistory(d, rs, if Commits(d, rs[0], fp) then [rs[0]] + c else c, last, fp)
  {
    ServeStep(d, rs[0], fp);
    hide Serve, ApplyToDomain;
    var r := rs[0];
    if Commits(d, r, fp) {
      var all := [r] + c;
      assert all[1..] == c;
      forall i | 0 <= i < |all| ensures !Taken(d, all[i]) && all[i] in rs && (Keyed(all[i]) ==> Taken(last, all[i])) {
        if i > 0 { assert all[i] == c[i - 1]; }
      }
      forall i, j | 0 <= i < j < |all| && Keyed(all[i]) && Keyed(all[j]) && LevelOf(all[i]) == LevelOf(all[j])
        ensures all[i].id != all[j].id
      {
        assert all[j] == c[j - 1];
        if i > 0 { assert all[i] == c[i - 1]; }
      }
    }
  }

  /** Ids stay remembered with the entry, and so with the receipt, of their first success. */
  lemma {:induction false} MemoryGrows(d: Data, rs: seq<Request>, fp: FloatPlus)
    ensures forall level, id :: id in Remembered(d, level) ==>
      id in Remembered(ServeAll(d, rs, fp), level) && Remembered(ServeAll(d, rs, fp), level)[id] ==
        Remembered(d, level)[id]
    decreases rs
  {
    if rs != [] {
      ServeStep(d, rs[0], fp);
      MemoryGrows(Serve(d, rs[0], fp).0, rs[1..], fp);
    }
  }

  lemma {:induction false} ServeAllConcat(d: Data, a: seq<Request>, b: seq<Request>, fp: FloatPlus)
    ensures ServeAll(d, a + b, fp) == ServeAll(ServeAll(d, a, fp), b, fp)
    decreases a
  {
    if a == [] {
      assert a + b == b;
    } else {
      assert (a + b)[1..] == a[1..] + b;
      ServeAllConcat(Serve(d, a[0], fp).0, a[1..], b, fp);
    }
  }

  lemma ServeAllOne(d: Data, r: Request, fp: FloatPlus)
    ensures ServeAll(d, [r], fp) == Serve(d, r, fp).0
  {
    assert ServeAll(d, [r], fp) == ServeAll(Serve(d, r, fp).0, [], fp);
  }

  /** Delivering an accepted keyed request again, at any later time, is invisible. */
  lemma LateDuplicateInvisible(d: Data, a: seq<Request>, r: Request, b: seq<Request>, c: seq<Request>, fp: FloatPlus)
    requires Keyed(r) && Serve(ServeAll(d, a, fp), r, fp).1.Ok?
    ensures ServeAll(d, a + [r] + b + [r] + c, fp) == ServeAll(d, a + [r] + b + c, fp)
  {
    var e := ServeAll(d, a, fp);
    var f := Serve(e, r, fp).0;
    var g := ServeAll(f, b, fp);
    ServeAllOne(e, r, fp);
    ServeAllOne(g, r, fp);
    ServeAllConcat(d, a, [r], fp);
    ServeAllConcat(d, a + [r], b, fp);
    ServeAllConcat(d, a + [r] + b, [r], fp);
    ServeAllConcat(d, a + [r] + b + [r], c, fp);
    ServeAllConcat(d, a + [r] + b, c, fp);
    ServeStep(e, r, fp);
    MemoryGrows(f, b, fp);
    assert Remembered(f, LevelOf(r))[r.id].action == r.action && Remembered(f, LevelOf(r))[r.id].payload == r.payload;
  }

  // ---------------------------------------------------------------- the counters

  function CommitsAt(d: Data, rs: seq<Request>, level: Level, fp: FloatPlus): nat
    decreases rs
  {
    if rs == [] then 0
    else
      (if Commits(d, rs[0], fp) && LevelOf(rs[0]) == level then 1 else 0)
      + CommitsAt(Serve(d, rs[0], fp).0, rs[1..], level, fp)
  }

  /** What the statistics of any document reached from a fresh one say. */
  predicate StatsAgree(d: Data, legacy: nat) {
    && d.stats.idempotent == |d.idempotent|
    && d.stats.rifl == |d.rifl|
    && d.stats.total == legacy + d.stats.idempotent + d.stats.rifl + d.stats.distinguishable + d.stats.counter
  }

  lemma StatsStep(d: Data, legacy: nat, r: Request, fp: FloatPlus)
    requires StatsAgree(d, legacy)
    ensures StatsAgree(Serve(d, r, fp).0, if Commits(d, r, fp) && r.LegacyReq? then legacy + 1 else legacy)
  {
  }

  lemma {:induction false} StatsFrom(d: Data, legacy: nat, rs: seq<Request>, fp: FloatPlus)
    requires StatsAgree(d, legacy)
    ensures StatsAgree(ServeAll(d, rs, fp), legacy + CommitsAt(d, rs, Legacy, fp))
    decreases rs
  {
    hide Serve, StatsAgree;
    if rs != [] {
      StatsStep(d, legacy, rs[0], fp);
      StatsFrom(Serve(d, rs[0], fp).0, if Commits(d, rs[0], fp) && rs[0].LegacyReq? then legacy + 1 else legacy,
                rs[1..], fp);
    }
  }

  function CountAt(s: Stats, level: Level): nat {
    match level
    case Legacy => 0
    case Idempotent => s.idempotent
    case Rifl => s.rifl
    case Distinguishable => s.distinguishable
    case Counter => s.counter
  }

  /** Every counter but the total moves with the commits at its own level. */
  lemma {:induction false} CountFrom(d: Data, level: Level, rs: seq<Request>, fp: FloatPlus)
    requires level != Legacy
    ensures CountAt(ServeAll(d, rs, fp).stats, level) == CountAt(d.stats, level) + CommitsAt(d, rs, level, fp)
    decreases rs
  {
    if rs != [] {
      var e := Serve(d, rs[0], fp).0;
      ServeStep(d, rs[0], fp);
      hide Serve;
      CountFrom(e, level, rs[1..], fp);
    }
  }

  /** Nothing was ever committed. The free-form state may have been seeded. */
  predicate NothingCommitted(d: Data) {
    d.stats == EMPTY_STATS && d.idempotent == map[] && d.rifl == map[]
  }

  lemma FreshAgrees(d: Data, level: Level)
    requires NothingCommitted(d)
    ensures StatsAgree(d, 0) && CountAt(d.stats, level) == 0
  {
  }

  /** From a fresh store the total is the sum over the API levels, and the keyed counters are their map sizes. */
  lemma StatsFromFresh(d: Data, rs: seq<Request>, level: Level, fp: FloatPlus)
    requires NothingCommitted(d)
    ensures StatsAgree(ServeAll(d, rs, fp), CommitsAt(d, rs, Legacy, fp))
    ensures level != Legacy ==> CountAt(ServeAll(d, rs, fp).stats, level) == CommitsAt(d, rs, level, fp)
  {
    hide *;
    FreshAgrees(d, level);
    StatsFrom(d, 0, rs, fp);
    if level != Legacy {
      CountFrom(d, level, rs, fp);
    }
  }
}
