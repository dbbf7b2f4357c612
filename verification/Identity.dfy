/** The deterministic execution id of a tool call: a digest of `run|item|tool[|key]|arguments`. */
module Identity {
  import opened Prelude
  import opened Json

  datatype Call = Call(run: string, item: string, tool: string, key: Option<string>, args: map<string, Json>)

  function KeyPart(c: Call): string {
    if c.key.Some? then "|" + c.key.value else ""
  }

  function Front(c: Call): string {
    c.run + "|" + c.item + "|" + c.tool + KeyPart(c)
  }

  /** The string that is hashed. */
  function Raw(c: Call): string {
    Front(c) + "|" + Print(JObj(c.args))
  }

  /** `digest` stands for the truncated SHA-256; nothing is known about it but that it is a function. */
  function BuildId(digest: string -> string, c: Call): string {
    "exec_" + digest(Raw(c))
  }

  predicate CollisionFree(digest: string -> string, calls: set<Call>) {
    forall c, d :: c in calls && d in calls && digest(Raw(c)) == digest(Raw(d)) ==> Raw(c) == Raw(d)
  }

  /** The run, the plan item and the tool do not contain the separator. The key may be any string. */
  predicate CleanIds(c: Call) {
    '|' !in c.run && '|' !in c.item && '|' !in c.tool
  }

  /** Exactly what the hashed string identifies, for all calls: the arguments and the joined front part. */
  lemma RawIdentifies(c: Call, d: Call)
    ensures Raw(c) == Raw(d) <==> Front(c) == Front(d) && c.args == d.args
  {
    if Raw(c) == Raw(d) {
      var f, g, v, w := Front(c), Front(d), JObj(c.args), JObj(d.args);
      if |f| == |g| {
        Assoc(f, "|", Print(v));
        Assoc(g, "|", Print(w));
        Cancel(f, "|" + Print(v), g, "|" + Print(w));
        Cancel("|", Print(v), "|", Print(w));
        PrintInjective(v, w);
      } else if |f| < |g| {
        NoShorterFront(f, g, v, w);
      } else {
        NoShorterFront(g, f, w, v);
      }
    }
  }

  lemma NoShorterFront(f: string, g: string, v: Json, w: Json)
    requires |f| < |g|
    ensures f + "|" + Print(v) != g + "|" + Print(w)
  {
    if f + "|" + Print(v) == g + "|" + Print(w) {
      var x := f + "|" + Print(v);
      var n := |f| + 1;
      assert x[n..] == Print(v);
      assert x[n..] == g[n..] + "|" + Print(w);
      NoDocumentAfterBar(v, w, g[n..]);
    }
  }

  lemma BarEndsShorter(a: string, b: string, r: string, t: string)
    requires |a| < |b| && '|' !in b && (r == [] || r[0] == '|')
    ensures a + r != b + t
  {
    if r != [] {
      assert (a + r)[|a|] == '|' && (b + t)[|a|] == b[|a|];
    }
  }

  lemma SplitAtBar(a: string, b: string, r: string, t: string)
    requires '|' !in a && '|' !in b
    requires a + r == b + t
    requires (r == [] || r[0] == '|') && (t == [] || t[0] == '|')
    ensures a == b && r == t
  {
    if |a| < |b| { BarEndsShorter(a, b, r, t); }
    if |b| < |a| { BarEndsShorter(b, a, t, r); }
    Cancel(a, r, b, t);
  }

  function AfterItem(c: Call): string { "|" + (c.tool + KeyPart(c)) }
  function AfterRun(c: Call): string { "|" + (c.item + AfterItem(c)) }

  lemma FrontNested(c: Call)
    ensures Front(c) == c.run + AfterRun(c)
  {
    Assoc(c.run + "|" + c.item + "|", c.tool, KeyPart(c));
    Assoc(c.run + "|" + c.item, "|", c.tool + KeyPart(c));
    Assoc(c.run + "|", c.item, AfterItem(c));
    Assoc(c.run, "|", c.item + AfterItem(c));
  }

  /** Separator-free ids make the hashed string an identity of the whole call. */
  lemma CleanCallsIdentified(c: Call, d: Call)
    requires CleanIds(c) && CleanIds(d)
    ensures Raw(c) == Raw(d) <==> c == d
  {
    RawIdentifies(c, d);
    if Raw(c) == Raw(d) {
      FrontNested(c);
      FrontNested(d);
      SplitAtBar(c.run, d.run, AfterRun(c), AfterRun(d));
      Cancel("|", c.item + AfterItem(c), "|", d.item + AfterItem(d));
      SplitAtBar(c.item, d.item, AfterItem(c), AfterItem(d));
      Cancel("|", c.tool + KeyPart(c), "|", d.tool + KeyPart(d));
      SplitAtBar(c.tool, d.tool, KeyPart(c), KeyPart(d));
      if c.key.Some? {
        Cancel("|", c.key.value, "|", d.key.value);
      }
    }
  }

  /** Under a collision-free digest two clean calls share an execution id only if they are the same call. */
  lemma IdIdentifiesCall(digest: string -> string, calls: set<Call>, c: Call, d: Call)
    requires CollisionFree(digest, calls) && c in calls && d in calls
    requires CleanIds(c) && CleanIds(d)
    ensures BuildId(digest, c) == BuildId(digest, d) <==> c == d
  {
    if BuildId(digest, c) == BuildId(digest, d) {
      Cancel("exec_", digest(Raw(c)), "exec_", digest(Raw(d)));
      CleanCallsIdentified(c, d);
    }
  }

  /** Without that condition the promise fails: a separator can move from one id into its neighbour. */
  lemma SeparatorInIdsCollides(args: map<string, Json>)
    ensures var c := Call("a|b", "c", "t", None, args); var d := Call("a", "b|c", "t", None, args);
      c != d && Raw(c) == Raw(d)
    ensures var c := Call("r", "i", "t|k", None, args); var d := Call("r", "i", "t", Some("k"), args);
      c != d && Raw(c) == Raw(d)
  {
    var c, d := Call("a|b", "c", "t", None, args), Call("a", "b|c", "t", None, args);
    assert Front(c) == "a|b|c|t" == Front(d);
    var e, f := Call("r", "i", "t|k", None, args), Call("r", "i", "t", Some("k"), args);
    assert Front(e) == "r|i|t|k" == Front(f);
  }
}
