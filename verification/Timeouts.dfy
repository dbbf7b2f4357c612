/** How long a dispatched call may still be in flight, read off its request payload. */
module Timeouts {
  import opened Prelude
  import opened Json
  import opened Models
  import Text

  /** Python's `float` of a text, for both JSON float literals and strings. Floating point itself is not modelled. */
  type FloatOf = string -> Option<real>

  function Positive(v: Option<real>): Option<real> {
    if v.Some? && v.value > 0.0 then v else None
  }

  /** `_parse_positive_float`: booleans are not numbers here. */
  function ParsePositive(raw: Json, f: FloatOf): Option<real> {
    match raw
    case JInt(n) => Positive(Some(n as real))
    case JFloat(text) => Positive(f(text))
    case JStr(s) => if Text.Strip(s) == "" then None else Positive(f(Text.Strip(s)))
    case _ => None
  }

  function Field(p: map<string, Json>, key: string, f: FloatOf): Option<real> {
    if key in p then ParsePositive(p[key], f) else None
  }

  function FirstField(p: map<string, Json>, keys: seq<string>, f: FloatOf): Option<real> {
    if keys == [] then None
    else if Field(p, keys[0], f).Some? then Field(p, keys[0], f)
    else FirstField(p, keys[1..], f)
  }

  const SECOND_KEYS := ["call_timeout_seconds", "timeout_seconds", "timeout_s"]
  const MILLI_KEYS := ["call_timeout_ms", "timeout_ms"]
  const NESTED_KEYS := ["meta", "metadata", "config", "options"]

  function Direct(p: map<string, Json>, f: FloatOf): Option<real> {
    var seconds, millis := FirstField(p, SECOND_KEYS, f), FirstField(p, MILLI_KEYS, f);
    if seconds.Some? then seconds
    else if millis.Some? then Some(millis.value / 1000.0)
    else Field(p, "timeout", f)
  }

  /** `parse_call_timeout_seconds`: the fields of the object itself first, then the nested objects in order. */
  function ParseTimeout(p: Json, f: FloatOf): Option<real>
    requires p.JObj?
    decreases p, 1, 0
  {
    if Direct(p.fields, f).Some? then Direct(p.fields, f) else Nested(p, NESTED_KEYS, f)
  }

  function Nested(p: Json, keys: seq<string>, f: FloatOf): Option<real>
    requires p.JObj?
    decreases p, 0, |keys|
  {
    if keys == [] then None
    else
      var found := if keys[0] in p.fields && p.fields[keys[0]].JObj? then ParseTimeout(p.fields[keys[0]], f) else None;
      if found.Some? then found else Nested(p, keys[1..], f)
  }

  /** `path` leads through nested option objects of `p` to an object with a usable timeout of its own. */
  ghost predicate Leads(p: Json, path: seq<string>, f: FloatOf)
    decreases |path|
  {
    p.JObj? &&
    if path == [] then Direct(p.fields, f).Some?
    else path[0] in NESTED_KEYS && path[0] in p.fields && Leads(p.fields[path[0]], path[1..], f)
  }

  /** Some path leads to a usable timeout; if `keys` is given, the path starts with one of them. */
  ghost predicate Reachable(p: Json, keys: Option<seq<string>>, f: FloatOf) {
    exists path :: Leads(p, path, f) && (keys.Some? ==> path != [] && path[0] in keys.value)
  }

  lemma {:induction false} FirstFieldPositive(p: map<string, Json>, keys: seq<string>, f: FloatOf)
    ensures FirstField(p, keys, f).Some? ==> FirstField(p, keys, f).value > 0.0
  {
    if keys != [] { FirstFieldPositive(p, keys[1..], f); }
  }

  lemma DirectPositive(p: map<string, Json>, f: FloatOf)
    ensures Direct(p, f).Some? ==> Direct(p, f).value > 0.0
  {
    FirstFieldPositive(p, SECOND_KEYS, f);
    FirstFieldPositive(p, MILLI_KEYS, f);
  }

  /** A timeout is found exactly when one is reachable, and it is positive. */
  lemma {:induction false} TimeoutFound(p: Json, f: FloatOf)
    requires p.JObj?
    ensures ParseTimeout(p, f).Some? ==> ParseTimeout(p, f).value > 0.0
    ensures ParseTimeout(p, f).Some? <==> Reachable(p, None, f)
    decreases p, 1, 0
  {
    DirectPositive(p.fields, f);
    TopReachable(p, f);
    if Direct(p.fields, f).None? {
      NestedFound(p, NESTED_KEYS, f);
    }
  }

  lemma {:induction false} NestedFound(p: Json, keys: seq<string>, f: FloatOf)
    requires p.JObj? && forall k :: k in keys ==> k in NESTED_KEYS
    ensures Nested(p, keys, f).Some? ==> Nested(p, keys, f).value > 0.0
    ensures Nested(p, keys, f).Some? <==> Reachable(p, Some(keys), f)
    decreases p, 0, |keys|
  {
    if keys != [] {
      NextReachable(p, keys, f);
      NestedFound(p, keys[1..], f);
      if keys[0] in p.fields && p.fields[keys[0]].JObj? {
        TimeoutFound(p.fields[keys[0]], f);
      }
    }
  }

  lemma TopReachable(p: Json, f: FloatOf)
    requires p.JObj?
    ensures Reachable(p, None, f) <==> Direct(p.fields, f).Some? || Reachable(p, Some(NESTED_KEYS), f)
  {
    if Direct(p.fields, f).Some? {
      var here: seq<string> := [];
      assert Leads(p, here, f);
    }
  }

  lemma NextReachable(p: Json, keys: seq<string>, f: FloatOf)
    requires p.JObj? && keys != [] && keys[0] in NESTED_KEYS
    ensures Reachable(p, Some(keys), f) <==>
      Reachable(p, Some(keys[1..]), f) || (keys[0] in p.fields && Reachable(p.fields[keys[0]], None, f))
  {
    var k := keys[0];
    if Reachable(p, Some(keys), f) {
      var path :| Leads(p, path, f) && path != [] && path[0] in keys;
      if path[0] == k { assert Leads(p.fields[k], path[1..], f); } else { assert path[0] in keys[1..]; }
    }
    if k in p.fields && Reachable(p.fields[k], None, f) {
      var path :| Leads(p.fields[k], path, f);
      var longer := [k] + path;
      assert longer[1..] == path;
      assert Leads(p, longer, f);
    }
  }

  /** Own fields beat nested objects, seconds beat milliseconds, milliseconds beat the generic field; each in its own
      unit. */
  lemma TimeoutPrecedence(p: Json, f: FloatOf)
    requires p.JObj?
    ensures
      var seconds, millis := FirstField(p.fields, SECOND_KEYS, f), FirstField(p.fields, MILLI_KEYS, f);
      var generic := Field(p.fields, "timeout", f);
      && (seconds.Some? ==> ParseTimeout(p, f) == seconds)
      && (seconds.None? && millis.Some? ==>
          ParseTimeout(p, f).Some? && 1000.0 * ParseTimeout(p, f).value == millis.value)
      && (seconds.None? && millis.None? && generic.Some? ==> ParseTimeout(p, f) == generic)
  {
  }

  /** `resolve_wait_deadline`. */
  function WaitSeconds(request: Payload, fallback: real, f: FloatOf): real {
    match ParseTimeout(JObj(request), f)
    case Some(t) => if t <= 0.0 then fallback else t
    case None => fallback
  }

  /** A call waits for its own timeout if one is reachable, and otherwise for the window of the coordinator. */
  lemma WaitIs(request: Payload, fallback: real, f: FloatOf)
    ensures var own := ParseTimeout(JObj(request), f);
      && (Reachable(JObj(request), None, f) ==> own.Some? && WaitSeconds(request, fallback, f) == own.value > 0.0)
      && (!Reachable(JObj(request), None, f) ==> WaitSeconds(request, fallback, f) == fallback)
  {
    TimeoutFound(JObj(request), f);
  }

  /** What a field may hold: a positive number, or a text that reads as one. */
  predicate Usable(v: Json, f: FloatOf) {
    match v
    case JInt(n) => n > 0
    case JFloat(text) => f(text).Some? && f(text).value > 0.0
    case JStr(s) => !Text.Blank(s) && f(Text.Strip(s)).Some? && f(Text.Strip(s)).value > 0.0
    case _ => false
  }

  predicate Has(p: map<string, Json>, key: string, f: FloatOf) { key in p && Usable(p[key], f) }

  lemma FieldIs(p: map<string, Json>, key: string, f: FloatOf)
    ensures Field(p, key, f).Some? <==> Has(p, key, f)
  {
    if key in p && p[key].JStr? { Text.StripTrims(p[key].s); }
  }

  /** The fields that are read, by name: three in seconds, two in milliseconds, one without a unit. */
  lemma OwnTimeout(p: map<string, Json>, f: FloatOf)
    ensures Direct(p, f).Some? <==>
      || Has(p, "call_timeout_seconds", f) || Has(p, "timeout_seconds", f) || Has(p, "timeout_s", f)
      || Has(p, "call_timeout_ms", f) || Has(p, "timeout_ms", f) || Has(p, "timeout", f)
    ensures Has(p, "call_timeout_seconds", f) ==> Direct(p, f) == ParsePositive(p["call_timeout_seconds"], f)
    ensures !Has(p, "call_timeout_seconds", f) && Has(p, "timeout_seconds", f) ==>
      Direct(p, f) == ParsePositive(p["timeout_seconds"], f)
  {
    FieldIs(p, "call_timeout_seconds", f);
    FieldIs(p, "timeout_seconds", f);
    FieldIs(p, "timeout_s", f);
    FieldIs(p, "call_timeout_ms", f);
    FieldIs(p, "timeout_ms", f);
    FieldIs(p, "timeout", f);
    ThreeFields(p, f);
    TwoFields(p, f);
    hide ParsePositive, Usable, FirstField;
  }

  lemma FirstOf(p: map<string, Json>, key: string, keys: seq<string>, f: FloatOf)
    ensures FirstField(p, [key] + keys, f) ==
      if Field(p, key, f).Some? then Field(p, key, f) else FirstField(p, keys, f)
  {
    hide Field;
    assert ([key] + keys)[1..] == keys;
  }

  lemma ThreeFields(p: map<string, Json>, f: FloatOf)
    ensures var a, b, c :=
      Field(p, "call_timeout_seconds", f), Field(p, "timeout_seconds", f), Field(p, "timeout_s", f);
      FirstField(p, SECOND_KEYS, f) == if a.Some? then a else if b.Some? then b else c
  {
    FirstOf(p, "timeout_s", [], f);
    FirstOf(p, "timeout_seconds", ["timeout_s"], f);
    FirstOf(p, "call_timeout_seconds", ["timeout_seconds", "timeout_s"], f);
    hide Field;
    assert SECOND_KEYS == ["call_timeout_seconds"] + ["timeout_seconds", "timeout_s"];
    assert ["timeout_seconds", "timeout_s"] == ["timeout_seconds"] + ["timeout_s"];
    assert ["timeout_s"] == ["timeout_s"] + [];
  }

  lemma TwoFields(p: map<string, Json>, f: FloatOf)
    ensures var a, b := Field(p, "call_timeout_ms", f), Field(p, "timeout_ms", f);
      FirstField(p, MILLI_KEYS, f) == if a.Some? then a else b
  {
    FirstOf(p, "timeout_ms", [], f);
    FirstOf(p, "call_timeout_ms", ["timeout_ms"], f);
    hide Field;
    assert MILLI_KEYS == ["call_timeout_ms"] + ["timeout_ms"] && ["timeout_ms"] == ["timeout_ms"] + [];
  }

  /** The objects that are searched, by name. */
  lemma NestedNames(key: string)
    ensures key in NESTED_KEYS <==> key == "meta" || key == "metadata" || key == "config" || key == "options"
  {
  }
}
