/** Execution payloads in the runtime store: small ones inline, large ones as shared artifacts. */
module Payloads {
  import opened Prelude
  import opened Json
  import opened Models

  /** A payload column of a record: no payload, its text, or the id of an artifact. */
  datatype Slot = Empty | Inline(text: string) | Ref(payloadId: string)

  datatype Row = Row(request: Slot, response: Slot)

  datatype Tables = Tables(rows: map<ExecId, Row>, artifacts: map<string, string>)

  /** `digest` is the first sixteen digits of the SHA-256 of the printed payload, `size` its length in bytes. */
  datatype Config = Config(digest: string -> string, size: string -> nat, limit: int)

  const DIGEST_LENGTH := 16

  function Text(p: Payload): string { Print(JObj(p)) }

  function ArtifactId(cfg: Config, id: ExecId, kind: string, p: Payload): string {
    id + ":" + kind + ":" + cfg.digest(Text(p))
  }

  /** `_store_payload`: an artifact that is already there is left alone. */
  function StorePayload(cfg: Config, artifacts: map<string, string>, id: ExecId, kind: string, p: Option<Payload>)
    : (map<string, string>, Slot)
  {
    match p
    case None => (artifacts, Empty)
    case Some(payload) =>
      if cfg.size(Text(payload)) <= cfg.limit then (artifacts, Inline(Text(payload)))
      else
        var key := ArtifactId(cfg, id, kind, payload);
        (if key in artifacts then artifacts else artifacts[key := Text(payload)], Ref(key))
  }

  /** The payload part of `upsert_external_result`. */
  function Upsert(cfg: Config, t: Tables, id: ExecId, request: Option<Payload>, response: Option<Payload>): Tables {
    var (a, requestSlot) := StorePayload(cfg, t.artifacts, id, "request", request);
    var (b, responseSlot) := StorePayload(cfg, a, id, "response", response);
    Tables(t.rows[id := Row(requestSlot, responseSlot)], b)
  }

  /** `json.loads` on a text that the printer wrote. */
  ghost predicate Reads(text: string, p: Payload) { Text(p) == text }

  /** `_load_payload` gives `p`; a dangling reference raises, so nothing holds of it. */
  ghost predicate Loads(artifacts: map<string, string>, slot: Slot, p: Option<Payload>) {
    match slot
    case Empty => p == None
    case Inline(text) => p.Some? && Reads(text, p.value)
    case Ref(key) => key in artifacts && p.Some? && Reads(artifacts[key], p.value)
  }

  /** A slot gives back one payload at most. */
  lemma LoadsOne(artifacts: map<string, string>, slot: Slot, p: Option<Payload>, q: Option<Payload>)
    requires Loads(artifacts, slot, p) && Loads(artifacts, slot, q)
    ensures p == q
  {
    hide Print;
    if !slot.Empty? {
      PrintInjective(JObj(p.value), JObj(q.value));
    }
  }

  /** No two of these payloads share a digest. */
  ghost predicate NoCollision(cfg: Config, payloads: set<Payload>) {
    && (forall p :: p in payloads ==> |cfg.digest(Text(p))| == DIGEST_LENGTH)
    && (forall p, q :: p in payloads && q in payloads && cfg.digest(Text(p)) == cfg.digest(Text(q)) ==> p == q)
  }

  /** Every artifact holds one of the payloads, under an id that ends with its digest. */
  ghost predicate Filed(cfg: Config, artifacts: map<string, string>, payloads: set<Payload>) {
    forall key :: key in artifacts ==> exists p :: p in payloads && FiledAs(cfg, key, artifacts[key], p)
  }

  predicate FiledAs(cfg: Config, key: string, text: string, p: Payload) {
    text == Text(p) && |key| >= DIGEST_LENGTH && key[|key| - DIGEST_LENGTH..] == cfg.digest(Text(p))
  }

  lemma IdEndsWithDigest(cfg: Config, id: ExecId, kind: string, p: Payload)
    requires |cfg.digest(Text(p))| == DIGEST_LENGTH
    ensures FiledAs(cfg, ArtifactId(cfg, id, kind, p), Text(p), p)
  {
    var front := id + ":" + kind + ":";
    assert ArtifactId(cfg, id, kind, p) == front + cfg.digest(Text(p));
  }

  /** Storing a payload makes its slot readable and never changes an artifact, wherever the id came from. */
  lemma StoreLoads(cfg: Config, artifacts: map<string, string>, payloads: set<Payload>, id: ExecId, kind: string,
                   p: Option<Payload>)
    requires NoCollision(cfg, payloads) && Filed(cfg, artifacts, payloads) && (p.Some? ==> p.value in payloads)
    ensures var (after, slot) := StorePayload(cfg, artifacts, id, kind, p);
      && Loads(after, slot, p) && Filed(cfg, after, payloads)
      && forall key :: key in artifacts ==> key in after && after[key] == artifacts[key]
  {
    hide Print;
    if p.Some? && cfg.size(Text(p.value)) > cfg.limit {
      var key := ArtifactId(cfg, id, kind, p.value);
      IdEndsWithDigest(cfg, id, kind, p.value);
      hide Text, ArtifactId;
      if key in artifacts {
        SameKeySamePayload(cfg, artifacts, payloads, key, p.value);
      } else {
        FiledOneMore(cfg, artifacts, payloads, key, p.value);
      }
    }
  }

  /** A payload is kept in its row exactly while it is within the limit; a longer one is filed under its record, its
      kind and its digest. */
  lemma SmallIsInline(cfg: Config, artifacts: map<string, string>, id: ExecId, kind: string, p: Option<Payload>)
    ensures var (after, slot) := StorePayload(cfg, artifacts, id, kind, p);
      && (slot.Empty? <==> p.None?)
      && (slot.Inline? <==> p.Some? && cfg.size(Print(JObj(p.value))) <= cfg.limit)
      && (slot.Ref? ==>
            && slot.payloadId == id + ":" + kind + ":" + cfg.digest(Print(JObj(p.value)))
            && slot.payloadId in after && after.Keys == artifacts.Keys + {slot.payloadId})
      && (!slot.Ref? ==> after == artifacts)
  {
    hide Print;
  }

  lemma SameKeySamePayload(cfg: Config, artifacts: map<string, string>, payloads: set<Payload>, key: string, p: Payload)
    requires NoCollision(cfg, payloads) && Filed(cfg, artifacts, payloads) && p in payloads && key in artifacts
      && FiledAs(cfg, key, Text(p), p)
    ensures artifacts[key] == Text(p)
  {
    hide Text;
    var q :| q in payloads && FiledAs(cfg, key, artifacts[key], q);
    assert cfg.digest(Text(q)) == cfg.digest(Text(p));
  }

  lemma FiledOneMore(cfg: Config, artifacts: map<string, string>, payloads: set<Payload>, key: string, p: Payload)
    requires Filed(cfg, artifacts, payloads) && p in payloads && FiledAs(cfg, key, Text(p), p)
    ensures Filed(cfg, artifacts[key := Text(p)], payloads)
  {
    hide FiledAs, Text;
    var after := artifacts[key := Text(p)];
    forall k | k in after ensures exists q :: q in payloads && FiledAs(cfg, k, after[k], q) {
      if k == key {
        assert FiledAs(cfg, k, after[k], p);
      } else {
        var q :| q in payloads && FiledAs(cfg, k, artifacts[k], q);
      }
    }
  }

  datatype Save = Save(id: ExecId, request: Option<Payload>, response: Option<Payload>)

  function SaveAll(cfg: Config, t: Tables, saves: seq<Save>): Tables {
    if saves == [] then t
    else
      var s := saves[|saves| - 1];
      Upsert(cfg, SaveAll(cfg, t, saves[..|saves| - 1]), s.id, s.request, s.response)
  }

  function LastSave(saves: seq<Save>, id: ExecId): Option<Save> {
    if saves == [] then None else if saves[|saves| - 1].id == id then Some(saves[|saves| - 1])
      else LastSave(saves[..|saves| - 1], id)
  }

  predicate SavesWithin(saves: seq<Save>, payloads: set<Payload>) {
    forall i :: 0 <= i < |saves| ==>
      && (saves[i].request.Some? ==> saves[i].request.value in payloads)
      && (saves[i].response.Some? ==> saves[i].response.value in payloads)
  }

  /** Offloading is transparent: after any saves, on top of any artifacts that are already there, a record gives back
      exactly the payloads of its last save, whatever was inlined and whatever was shared. */
  lemma {:induction false} OffloadTransparent(cfg: Config, t: Tables, payloads: set<Payload>, saves: seq<Save>,
                                              id: ExecId)
    requires NoCollision(cfg, payloads) && Filed(cfg, t.artifacts, payloads) && SavesWithin(saves, payloads)
    ensures var u := SaveAll(cfg, t, saves);
      && Filed(cfg, u.artifacts, payloads)
      && (LastSave(saves, id).Some? ==> (
            && id in u.rows
            && Loads(u.artifacts, u.rows[id].request, LastSave(saves, id).value.request)
            && Loads(u.artifacts, u.rows[id].response, LastSave(saves, id).value.response)))
  {
    hide Print, StorePayload, Filed, Loads, NoCollision;
    if saves != [] {
      var rest, s := saves[..|saves| - 1], saves[|saves| - 1];
      OffloadTransparent(cfg, t, payloads, rest, id);
      var before := SaveAll(cfg, t, rest);
      StoreLoads(cfg, before.artifacts, payloads, s.id, "request", s.request);
      var (a, requestSlot) := StorePayload(cfg, before.artifacts, s.id, "request", s.request);
      StoreLoads(cfg, a, payloads, s.id, "response", s.response);
      var b := StorePayload(cfg, a, s.id, "response", s.response).0;
      StillLoads(a, b, requestSlot, s.request);
      if s.id != id && LastSave(rest, id).Some? {
        StillLoads(before.artifacts, b, before.rows[id].request, LastSave(rest, id).value.request);
        StillLoads(before.artifacts, b, before.rows[id].response, LastSave(rest, id).value.response);
      }
    }
  }

  lemma StillLoads(a: map<string, string>, b: map<string, string>, slot: Slot, p: Option<Payload>)
    requires Loads(a, slot, p) && forall key :: key in a ==> key in b && b[key] == a[key]
    ensures Loads(b, slot, p)
  {
  }

  /** The tables as the store updates them. */
  class PayloadTables {
    var rows: map<ExecId, Row>
    var artifacts: map<string, string>
    const cfg: Config

    function State(): Tables
      reads this
    {
      Tables(rows, artifacts)
    }

    constructor (cfg: Config)
      ensures State() == Tables(map[], map[]) && this.cfg == cfg
    {
      this.cfg := cfg;
      rows, artifacts := map[], map[];
    }

    method StoreOne(id: ExecId, kind: string, p: Option<Payload>) returns (slot: Slot)
      modifies this
      ensures (artifacts, slot) == StorePayload(cfg, old(artifacts), id, kind, p) && rows == old(rows)
    {
      if p.None? { return Empty; }
      if cfg.size(Text(p.value)) <= cfg.limit { return Inline(Text(p.value)); }
      var key := ArtifactId(cfg, id, kind, p.value);
      if key !in artifacts { artifacts := artifacts[key := Text(p.value)]; }
      return Ref(key);
    }

    method UpsertPayloads(id: ExecId, request: Option<Payload>, response: Option<Payload>)
      modifies this
      ensures State() == Upsert(cfg, old(State()), id, request, response)
    {
      var requestSlot := StoreOne(id, "request", request);
      var responseSlot := StoreOne(id, "response", response);
      rows := rows[id := Row(requestSlot, responseSlot)];
    }
  }
}
