/** Nested transaction scopes of the runtime store: one connection per thread, and only the outermost scope commits. */
module Transaction {
  import opened Prelude

  /** What one thread does with the store: a statement, a `with transaction()` block, or a block whose exceptions are
      caught. */
  datatype Block<!S> = Do(statement: S -> Outcome<S>) | Scope(body: seq<Block<S>>) | Try(body: seq<Block<S>>)

  /** `conn` is the working copy of the open connection, if there is one. */
  datatype Local<S> = Local(durable: S, conn: Option<S>, depth: nat)

  /** A statement works on the open connection; without one it commits by itself. */
  function Apply<S>(f: S -> Outcome<S>, l: Local<S>): (Local<S>, bool) {
    match f(if l.conn.Some? then l.conn.value else l.durable)
    case Err(_) => (l, false)
    case Ok(v) => (if l.conn.Some? then l.(conn := Some(v)) else l.(durable := v), true)
  }

  /** The flag says whether the block ended normally. */
  function Run<S>(b: Block<S>, l: Local<S>): (Local<S>, bool)
    decreases b
  {
    match b
    case Do(f) => Apply(f, l)
    case Scope(body) =>
      if l.conn.Some? then
        var (t, ok) := RunAll(body, l.(depth := l.depth + 1));
        (t.(depth := if t.depth > 0 then t.depth - 1 else 0), ok)
      else
        var (t, ok) := RunAll(body, Local(l.durable, Some(l.durable), 1));
        (Local(if ok && t.conn.Some? then t.conn.value else t.durable, None, 0), ok)
    case Try(body) => (RunAll(body, l).0, true)
  }

  function RunAll<S>(bs: seq<Block<S>>, l: Local<S>): (Local<S>, bool)
    decreases bs
  {
    if bs == [] then (l, true)
    else
      var (t, ok) := Run(bs[0], l);
      if ok then RunAll(bs[1..], t) else (t, false)
  }

  /** The same program with every scope taken away, on a plain value. */
  function Plain<S>(b: Block<S>, v: S): (S, bool)
    decreases b
  {
    match b
    case Do(f) => (match f(v) case Ok(u) => (u, true) case Err(_) => (v, false))
    case Scope(body) => PlainAll(body, v)
    case Try(body) => (PlainAll(body, v).0, true)
  }

  function PlainAll<S>(bs: seq<Block<S>>, v: S): (S, bool)
    decreases bs
  {
    if bs == [] then (v, true)
    else
      var (u, ok) := Plain(bs[0], v);
      if ok then PlainAll(bs[1..], u) else (u, false)
  }

  /** Inside an open transaction nothing becomes durable, and inner scopes are as good as absent. */
  lemma {:induction false} InnerIsPlain<S(!new)>(bs: seq<Block<S>>, l: Local<S>)
    requires l.conn.Some?
    ensures var (v, ok) := PlainAll(bs, l.conn.value); RunAll(bs, l) == (l.(conn := Some(v)), ok)
    decreases bs, 0
  {
    if bs != [] {
      InnerBlockIsPlain(bs[0], l);
      var (t, ok) := Run(bs[0], l);
      if ok { InnerIsPlain(bs[1..], t); }
    }
  }

  lemma {:induction false} InnerBlockIsPlain<S(!new)>(b: Block<S>, l: Local<S>)
    requires l.conn.Some?
    ensures var (v, ok) := Plain(b, l.conn.value); Run(b, l) == (l.(conn := Some(v)), ok)
    decreases b, 1
  {
    match b
    case Do(_) =>
    case Scope(body) => InnerIsPlain(body, l.(depth := l.depth + 1));
    case Try(body) => InnerIsPlain(body, l);
  }

  /** However scopes are nested, the store changes only when the outermost one ends normally, and then to what the plain
      program computes; an exception out of it leaves the store as it was. */
  lemma OutermostDecides<S(!new)>(body: seq<Block<S>>, durable: S)
    ensures var (v, ok) := PlainAll(body, durable);
      Run(Scope(body), Local(durable, None, 0)) == (Local(if ok then v else durable, None, 0), ok)
  {
    InnerIsPlain(body, Local(durable, Some(durable), 1));
  }

  /** The price: an inner scope that raises is not undone when the exception is caught on the way out. */
  lemma CaughtInnerScopeKept<S(!new)>(f: S -> Outcome<S>, raises: S -> Outcome<S>, durable: S)
    requires f(durable).Ok? && forall v :: raises(v).Err?
    ensures Run(Scope([Try([Scope([Do(f), Do(raises)])])]), Local(durable, None, 0)) ==
      (Local(f(durable).value, None, 0), true)
  {
    var u := f(durable).value;
    var last: seq<Block<S>> := [Do(raises)];
    var inner: seq<Block<S>> := [Do(f), Do(raises)];
    var guarded: seq<Block<S>> := [Scope(inner)];
    var program: seq<Block<S>> := [Try(guarded)];
    OutermostDecides(program, durable);
    assert PlainAll(last, u) == (u, false);
    assert inner[1..] == last;
    assert PlainAll(inner, durable) == (u, false);
    assert PlainAll(guarded, durable) == (u, false);
    assert program[1..] == [] && PlainAll(program, durable) == (u, true);
  }

  /** The context manager itself: what entering and leaving a scope does to the thread's connection. */
  class RuntimeStore<S(!new)> {
    var durable: S
    var conn: Option<S>
    var depth: nat

    function State(): Local<S>
      reads this
    {
      Local(durable, conn, depth)
    }

    ghost predicate Valid()
      reads this
    {
      conn.Some? <==> depth > 0
    }

    constructor (s: S)
      ensures Valid() && State() == Local(s, None, 0)
    {
      durable, conn, depth := s, None, 0;
    }

    /** True for the scope that opens the connection and will have to close it. */
    method Enter() returns (outermost: bool)
      requires Valid()
      modifies this
      ensures Valid() && outermost == old(conn).None? && durable == old(durable) && depth == old(depth) + 1
      ensures conn == if outermost then Some(old(durable)) else old(conn)
    {
      if conn.Some? {
        depth := depth + 1;
        return false;
      }
      conn := Some(durable);
      depth := 1;
      return true;
    }

    /** `normally` is false when the scope is left by an exception, which goes on. */
    method Leave(outermost: bool, normally: bool)
      requires Valid() && depth > 0 && (outermost <==> depth == 1)
      modifies this
      ensures Valid() && depth == old(depth) - 1
      ensures !outermost ==> conn == old(conn) && durable == old(durable)
      ensures outermost ==> conn == None && durable == if normally then old(conn).value else old(durable)
    {
      if !outermost {
        depth := depth - 1;
        return;
      }
      if normally { durable := conn.value; }
      depth := 0;
      conn := None;
    }

    method Execute(f: S -> Outcome<S>) returns (ok: bool)
      requires Valid()
      modifies this
      ensures Valid() && (State(), ok) == Apply(f, old(State()))
    {
      var r := f(if conn.Some? then conn.value else durable);
      if r.Err? { return false; }
      if conn.Some? { conn := Some(r.value); } else { durable := r.value; }
      return true;
    }

    /** Blocks are run by entering and leaving scopes. */
    method RunBlock(b: Block<S>) returns (ok: bool)
      requires Valid()
      modifies this
      ensures Valid() && (State(), ok) == Run(b, old(State()))
      decreases b, 1
    {
      match b
      case Do(f) => ok := Execute(f);
      case Scope(body) =>
        var outermost := Enter();
        InnerIsPlain(body, State());
        ok := RunBlocks(body);
        Leave(outermost, ok);
      case Try(body) =>
        var _ := RunBlocks(body);
        ok := true;
    }

    method RunBlocks(bs: seq<Block<S>>) returns (ok: bool)
      requires Valid()
      modifies this
      ensures Valid() && (State(), ok) == RunAll(bs, old(State()))
      decreases bs, 0
    {
      ok := true;
      if bs != [] {
        ok := RunBlock(bs[0]);
        if ok { ok := RunBlocks(bs[1..]); }
      }
    }
  }
}
