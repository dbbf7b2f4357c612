/** What a committed request leaves in the document of the target, in terms of what was sent. */
module TargetStates {
  import opened Prelude
  import opened Json
  import opened Target

  // ---------------------------------------------------------------- the writes with an action

  predicate CarriesAction(r: Request) { r.LegacyReq? || r.IdemReq? || r.RiflReq? }

  /** A committed action changes the free-form state as its name and payload say, and nothing else of it; the reply is
      its own receipt. A request that does not commit changes nothing. */
  lemma ActionChanges(d: Data, r: Request, fp: FloatPlus)
    requires CarriesAction(r)
    ensures var (e, reply) := Serve(d, r, fp);
      && (Commits(d, r, fp) ==>
            && Changed(d.domain, e.domain, r.action, r.payload, r.receipt, fp)
            && reply.value.receipt == r.receipt && reply.value.level == LevelOf(r)
            && e.objects == d.objects && e.history == d.history && e.counters == d.counters)
      && (!Commits(d, r, fp) ==> e == d)
  {
    AppliedChanges(d.domain, r.action, r.payload, r.receipt, fp);
    hide ApplyToDomain, Changed, Refused;
  }

  /** It commits exactly when it has a name, is not refused, and, at a keyed API, has an id that is new there. */
  lemma ActionCommits(d: Data, r: Request, fp: FloatPlus)
    requires CarriesAction(r)
    ensures Commits(d, r, fp) <==>
      && r.action != "" && !Refused(d.domain, r.action, r.payload)
      && (r.IdemReq? ==> r.id != "" && r.id !in d.idempotent) && (r.RiflReq? ==> r.id != "" && r.id !in d.rifl)
  {
    AppliedChanges(d.domain, r.action, r.payload, r.receipt, fp);
    hide ApplyToDomain, Changed, Refused;
  }

  /** The record of a committed action in the log: its own name, payload and receipt. Only a legacy action keeps the
      receipts of its earlier attempts under the same id and counts them. */
  lemma ActionIsLogged(d: Data, r: Request, fp: FloatPlus)
    requires CarriesAction(r) && Commits(d, r, fp)
    ensures var e := Serve(d, r, fp).0;
      && r.id in e.actionLog && e.actionLog == d.actionLog[r.id := e.actionLog[r.id]]
      && var x := e.actionLog[r.id];
         && x.level == LevelOf(r) && x.id == r.id && x.action == r.action && x.payload == r.payload
         && x.receipt == r.receipt
         && var earlier := if r.LegacyReq? && r.id in d.actionLog then d.actionLog[r.id].receipts else [];
            && x.receipts == earlier + [r.receipt]
            && x.attempts == 1 + if r.LegacyReq? && r.id in d.actionLog then d.actionLog[r.id].attempts else 0
  {
    hide ApplyToDomain;
  }

  // ---------------------------------------------------------------- objects and counters

  /** An object holds what was written last; a deleted one remembers only who deleted it. The history of its key grows
      by this write. */
  lemma ObjectChanges(d: Data, r: Request, fp: FloatPlus)
    requires r.ObjectReq? && Commits(d, r, fp)
    ensures "key" in r.payload && r.payload["key"].JStr? && NamesKey(r.payload, r.payload["key"].s)
    ensures var (e, reply) := Serve(d, r, fp); var key := r.payload["key"].s;
      && key in e.objects && e.objects == d.objects[key := e.objects[key]]
      && var x := e.objects[key];
         && x.key == key && x.lastAction == r.action && x.lastReceipt == r.receipt
         && (x.present <==> r.action != "delete_value")
         && x.value == (if r.action == "delete_value" then JNull else ValueOf(r.payload))
         && x.payload == (if r.action == "delete_value" then map[] else r.payload)
         && reply.value.receipt == r.receipt && reply.value.detail == Object(key, x)
  {
  }

  lemma ObjectHistoryGrows(d: Data, r: Request, fp: FloatPlus)
    requires r.ObjectReq? && Commits(d, r, fp)
    ensures "key" in r.payload && r.payload["key"].JStr?
    ensures var e := Serve(d, r, fp).0; var key := r.payload["key"].s;
      && key in e.history && e.history == d.history[key := e.history[key]]
      && var past := if key in d.history then d.history[key] else [];
         && |e.history[key]| == |past| + 1 && past <= e.history[key]
         && r.receipt.actionId in e.actionLog && e.actionLog[r.receipt.actionId] == e.history[key][|past|]
         && e.domain == d.domain && e.counters == d.counters
         && var x := e.history[key][|past|];
            x.action == r.action && x.payload == r.payload && x.receipt == r.receipt && x.id == r.receipt.actionId
  {
  }

  /** A counter grows by its delta, from zero, and answers with its new value. */
  lemma CounterChanges(d: Data, r: Request, fp: FloatPlus)
    requires r.CounterReq?
    ensures Commits(d, r, fp) <==> r.name != "" && Addable(r.delta) && Addable(NumberAt(d.counters, r.name))
    ensures var (e, reply) := Serve(d, r, fp);
      Commits(d, r, fp) ==>
        && r.name in e.counters && ElsewhereSame(d.counters, e.counters, r.name)
        && SumIs(e.counters[r.name], NumberAt(d.counters, r.name), r.delta, fp)
        && reply.value.receipt == r.receipt && reply.value.detail == Sum(r.name, e.counters[r.name])
        && e.domain == d.domain && e.objects == d.objects && e.history == d.history
  {
  }

  /** Without floats a counter is the sum of the deltas that were committed to it. */
  function Deltas(d: Data, rs: seq<Request>, name: string, fp: FloatPlus): int
    decreases rs
  {
    if rs == [] then 0
    else
      var r := rs[0];
      (if r.CounterReq? && r.name == name && Commits(d, r, fp) && IntOf(r.delta).Some? then IntOf(r.delta).value else 0)
      + Deltas(Serve(d, r, fp).0, rs[1..], name, fp)
  }

  predicate NoFloats(rs: seq<Request>, name: string) {
    forall i :: 0 <= i < |rs| && rs[i].CounterReq? && rs[i].name == name ==> !rs[i].delta.JFloat?
  }

  lemma CounterOne(d: Data, r: Request, name: string, fp: FloatPlus)
    requires IntOf(NumberAt(d.counters, name)).Some? && NoFloats([r], name)
    ensures var e := Serve(d, r, fp).0;
      && IntOf(NumberAt(e.counters, name)).Some?
      && IntOf(NumberAt(e.counters, name)).value == IntOf(NumberAt(d.counters, name)).value +
           if r.CounterReq? && r.name == name && Commits(d, r, fp) && IntOf(r.delta).Some? then IntOf(r.delta).value
           else 0
  {
    assert [r][0] == r;
    if r.CounterReq? {
      CounterChanges(d, r, fp);
    } else if CarriesAction(r) {
      ActionChanges(d, r, fp);
    } else if Commits(d, r, fp) {
      ObjectHistoryGrows(d, r, fp);
    }
    ServeDomain(d, r, fp);
    hide Serve, Changed;
  }

  lemma {:induction false} CounterIsSum(d: Data, rs: seq<Request>, name: string, fp: FloatPlus)
    requires IntOf(NumberAt(d.counters, name)).Some? && NoFloats(rs, name)
    ensures var after := NumberAt(ServeAll(d, rs, fp).counters, name);
      && IntOf(after).Some?
      && IntOf(after).value == IntOf(NumberAt(d.counters, name)).value + Deltas(d, rs, name, fp)
    decreases rs
  {
    hide Serve;
    if rs != [] {
      assert NoFloats([rs[0]], name) && NoFloats(rs[1..], name);
      CounterOne(d, rs[0], name, fp);
      CounterIsSum(Serve(d, rs[0], fp).0, rs[1..], name, fp);
    }
  }
}
