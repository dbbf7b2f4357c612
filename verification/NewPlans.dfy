/** What a started run is given as its plan: the items that were handed in, and nothing else. */
module NewPlans {
  import opened Prelude
  import opened Json
  import opened Text
  import opened Facade
  import opened Planner
  import Agreement
  import Context

  // ---------------------------------------------------------------- one item

  /** How a status is written. */
  function StatusWord(status: ItemStatus): string {
    match status
    case Pending => "pending"
    case InProgress => "in_progress"
    case Blocked => "blocked"
    case Done => "done"
    case Failed => "failed"
  }

  /** A status is read in any case and with any space around it, and nothing else is read as one. */
  lemma StatusIsRead(raw: string, status: ItemStatus)
    ensures ParseStatus(raw) == Some(status) <==> Lower(Strip(raw)) == StatusWord(status)
  {
    assert "pending"[0] != "blocked"[0];
    assert |"pending"| == 7 && |"blocked"| == 7 && |"in_progress"| == 11 && |"done"| == 4 && |"failed"| == 6;
    hide Lower, Strip;
  }

  function NonBlank(raw: seq<string>): set<nat> { set k: nat | k < |raw| && Strip(raw[k]) != "" }

  /** `deps` are the texts at the positions `at`, trimmed. */
  ghost predicate Trims(raw: seq<string>, at: seq<nat>, deps: seq<string>) {
    && Lists(at, NonBlank(raw)) && |deps| == |at|
    && forall i :: 0 <= i < |at| ==> at[i] < |raw| && deps[i] == Strip(raw[at[i]])
  }

  /** Exactly the texts that are not blank, trimmed, in their order. */
  ghost predicate TrimmedOf(raw: seq<string>, deps: seq<string>) { exists at :: Trims(raw, at, deps) }

  function IdGiven(raw: RawItem, k: nat): string {
    Strip(if raw.id.Some? && raw.id.value != "" then raw.id.value else "step_" + Digits(k))
  }

  function IndexGiven(raw: RawItem, k: nat): int { if raw.index.Some? then raw.index.value else k }

  /** `x` is what the item handed in at position `k` becomes. */
  ghost predicate FromRaw(x: Item, raw: RawItem, k: nat) {
    && x.id == IdGiven(raw, k) && x.title == Strip(raw.title) && x.index == IndexGiven(raw, k)
    && (if raw.status.None? then x.status == Pending else StatusWord(x.status) == Lower(Strip(raw.status.value)))
    && TrimmedOf(raw.deps, x.deps)
    && x.output.None? && x.outputs == [] && x.refs == [] && x.notes == []
  }

  lemma {:induction false} ListIsTrimmed(raw: seq<string>) returns (at: seq<nat>)
    ensures Trims(raw, at, NormalizeList(raw))
  {
    if raw == [] {
      at := [];
    } else {
      var later := ListIsTrimmed(raw[1..]);
      var shifted := seq(|later|, i requires 0 <= i < |later| => later[i] + 1);
      forall k: nat ensures k in shifted <==> k > 0 && k in NonBlank(raw) {
        if k in shifted {
          var i :| 0 <= i < |shifted| && shifted[i] == k;
          assert later[i] in later && raw[1..][later[i]] == raw[k];
        }
        if k > 0 && k in NonBlank(raw) {
          assert raw[1..][k - 1] == raw[k] && k - 1 in NonBlank(raw[1..]);
          var i :| 0 <= i < |later| && later[i] == k - 1;
          assert shifted[i] == k;
        }
      }
      at := if Strip(raw[0]) == "" then shifted else [0] + shifted;
      Shifted(raw, later, shifted);
      assert 0 in NonBlank(raw) <==> Strip(raw[0]) != "";
      if Strip(raw[0]) == "" {
        SkipFirst(raw, shifted, NormalizeList(raw[1..]));
      } else {
        ZeroFirst(raw, shifted, NormalizeList(raw[1..]), at);
      }
      hide Strip, NonBlank, Trims;
    }
  }

  lemma Shifted(raw: seq<string>, later: seq<nat>, shifted: seq<nat>)
    requires raw != [] && Trims(raw[1..], later, NormalizeList(raw[1..])) && |shifted| == |later|
    requires forall i :: 0 <= i < |later| ==> shifted[i] == later[i] + 1
    ensures var rest := NormalizeList(raw[1..]);
      && |rest| == |shifted| && (forall i, j :: 0 <= i < j < |shifted| ==> shifted[i] < shifted[j])
      && (forall i :: 0 <= i < |shifted| ==> 0 < shifted[i] < |raw| && rest[i] == Strip(raw[shifted[i]]))
  {
    hide Strip, NormalizeList, NonBlank;
    forall i | 0 <= i < |shifted|
      ensures 0 < shifted[i] < |raw| && NormalizeList(raw[1..])[i] == Strip(raw[shifted[i]])
    {
      assert raw[1..][later[i]] == raw[shifted[i]];
    }
  }

  lemma SkipFirst(raw: seq<string>, shifted: seq<nat>, rest: seq<string>)
    requires raw != [] && |rest| == |shifted| && 0 !in NonBlank(raw)
    requires forall i, j :: 0 <= i < j < |shifted| ==> shifted[i] < shifted[j]
    requires forall i :: 0 <= i < |shifted| ==> 0 < shifted[i] < |raw| && rest[i] == Strip(raw[shifted[i]])
    requires forall k: nat :: k in shifted <==> k > 0 && k in NonBlank(raw)
    ensures Trims(raw, shifted, rest)
  {
    hide Strip, NonBlank;
  }

  lemma ZeroFirst(raw: seq<string>, shifted: seq<nat>, rest: seq<string>, at: seq<nat>)
    requires raw != [] && at == [0] + shifted && |rest| == |shifted| && 0 in NonBlank(raw)
    requires forall i, j :: 0 <= i < j < |shifted| ==> shifted[i] < shifted[j]
    requires forall i :: 0 <= i < |shifted| ==> 0 < shifted[i] < |raw| && rest[i] == Strip(raw[shifted[i]])
    requires forall k: nat :: k in shifted <==> k > 0 && k in NonBlank(raw)
    ensures Trims(raw, at, [Strip(raw[0])] + rest)
  {
    hide Strip, NonBlank;
    forall k: nat ensures k in at <==> k in NonBlank(raw) {
      assert k in at <==> k == 0 || k in shifted;
    }
  }

  // ---------------------------------------------------------------- all items

  /** What may be handed in. */
  predicate Proper(raws: seq<RawItem>) {
    && raws != []
    && (forall k :: 0 <= k < |raws| ==> ProperItem(raws[k], k))
    && (forall j, k :: 0 <= j < k < |raws| ==> IdGiven(raws[j], j) != IdGiven(raws[k], k))
  }

  /** No index lies beyond the number of items. */
  predicate InRange(raws: seq<RawItem>) { forall k :: 0 <= k < |raws| ==> IndexGiven(raws[k], k) < |raws| }

  predicate ProperItem(raw: RawItem, k: nat) {
    && IdGiven(raw, k) != "" && Strip(raw.title) != "" && IndexGiven(raw, k) >= 0
    && (raw.status.Some? ==> ParseStatus(raw.status.value).Some?)
  }

  /** From position `k` on, with these ids taken. */
  predicate ProperFrom(raws: seq<RawItem>, k: nat, seen: set<string>) {
    && (forall j: nat :: k <= j < |raws| ==> ProperItem(raws[j], j) && IdGiven(raws[j], j) !in seen)
    && (forall i: nat, j: nat :: k <= i < j < |raws| ==> IdGiven(raws[i], i) != IdGiven(raws[j], j))
  }

  lemma {:induction false} BuiltFrom(raws: seq<RawItem>, k: nat, seen: set<string>)
    requires k <= |raws|
    ensures var r := BuildItems(raws, k, seen);
      && (r.Ok? <==> ProperFrom(raws, k, seen))
      && (r.Ok? ==> |r.value| == |raws| - k && forall i :: 0 <= i < |r.value| ==>
          FromRaw(r.value[i], raws[k + i], k + i))
    decreases |raws| - k
  {
    if k < |raws| {
      var id := IdGiven(raws[k], k);
      BuiltFrom(raws, k + 1, seen + {id});
      FirstBuilt(raws, k, seen);
      hide BuildItems, FromRaw, ProperItem, IdGiven;
      ProperNext(raws, k, seen);
      var r, rest := BuildItems(raws, k, seen), BuildItems(raws, k + 1, seen + {id});
      if r.Ok? {
        forall i | 0 <= i < |r.value| ensures FromRaw(r.value[i], raws[k + i], k + i) {
          if i > 0 {
            assert r.value[i] == rest.value[i - 1] && FromRaw(rest.value[i - 1], raws[k + 1 + (i - 1)], k + i);
          }
        }
      }
    }
  }

  lemma ProperNext(raws: seq<RawItem>, k: nat, seen: set<string>)
    requires k < |raws|
    ensures ProperFrom(raws, k, seen) <==>
      && ProperItem(raws[k], k) && IdGiven(raws[k], k) !in seen
      && ProperFrom(raws, k + 1, seen + {IdGiven(raws[k], k)})
  {
    hide ProperItem, IdGiven;
    if ProperItem(raws[k], k) && IdGiven(raws[k], k) !in seen && ProperFrom(raws, k + 1, seen + {IdGiven(raws[k], k)}) {
      forall i: nat, j: nat | k <= i < j < |raws| ensures IdGiven(raws[i], i) != IdGiven(raws[j], j) {
        if i == k { assert IdGiven(raws[j], j) !in seen + {IdGiven(raws[k], k)}; }
      }
    }
  }

  lemma FirstBuilt(raws: seq<RawItem>, k: nat, seen: set<string>)
    requires k < |raws|
    ensures var id := IdGiven(raws[k], k);
      var r, rest := BuildItems(raws, k, seen), BuildItems(raws, k + 1, seen + {id});
      && (r.Ok? <==> ProperItem(raws[k], k) && id !in seen && rest.Ok?)
      && (r.Ok? ==> r.value != [] && FromRaw(r.value[0], raws[k], k) && r.value[1..] == rest.value)
  {
    var raw := raws[k];
    var at := ListIsTrimmed(raw.deps);
    assert TrimmedOf(raw.deps, NormalizeList(raw.deps));
    if raw.status.Some? && ParseStatus(raw.status.value).Some? {
      StatusIsRead(raw.status.value, ParseStatus(raw.status.value).value);
    }
    hide Strip, Lower, Digits, NormalizeList, TrimmedOf, ParseStatus, StatusWord;
  }

  // ---------------------------------------------------------------- order

  predicate InStoredOrder(items: seq<Item>) {
    forall i, j :: 0 <= i < j < |items| ==> StoredBefore(items[i], items[j])
  }

  lemma StoredTransitive(x: Item, y: Item, z: Item)
    requires StoredBefore(x, y) && StoredBefore(y, z)
    ensures StoredBefore(x, z)
  {
    if x.index == z.index { StrLeTransitive(x.id, y.id, z.id); }
  }

  lemma {:induction false} InsertOrders(x: Item, s: seq<Item>)
    requires InStoredOrder(s)
    ensures InStoredOrder(InsertStored(x, s))
  {
    if s != [] {
      if StoredBefore(x, s[0]) {
        forall j | 0 <= j < |s| ensures StoredBefore(x, s[j]) {
          if j > 0 { StoredTransitive(x, s[0], s[j]); }
        }
      } else {
        StrLeTotal(x.id, s[0].id);
        assert StoredBefore(s[0], x);
        InsertOrders(x, s[1..]);
        var r := InsertStored(x, s[1..]);
        Agreement.InsertStoredKeeps(x, s[1..]);
        assert multiset(r) == multiset(s[1..] + [x]);
        SameElements(r, s[1..] + [x]);
        forall j | 0 <= j < |r| ensures StoredBefore(s[0], r[j]) { assert r[j] in s[1..] + [x]; }
      }
    }
  }

  lemma {:induction false} StoredIsOrdered(items: seq<Item>)
    ensures InStoredOrder(StoredOrder(items))
  {
    if items != [] {
      StoredIsOrdered(items[1..]);
      InsertOrders(items[0], StoredOrder(items[1..]));
    }
  }

  // ---------------------------------------------------------------- the plan

  /** The cursor is on a runnable item of least index, or nowhere if there is none. */
  ghost predicate AtNext(p: Plan) {
    if exists x :: x in p.items && Runnable(p.items, x) then exists x :: PointsAt(p, x)
    else p.active.None? && p.cursor.None?
  }

  ghost predicate BuiltOf(built: seq<Item>, raws: seq<RawItem>) {
    |built| == |raws| && forall i :: 0 <= i < |built| ==> FromRaw(built[i], raws[i], i)
  }

  /** Every item handed in has its item in the plan. */
  ghost predicate AllThere(items: seq<Item>, raws: seq<RawItem>) {
    forall k :: 0 <= k < |raws| ==> IsThere(items, raws[k], k)
  }

  ghost predicate IsThere(items: seq<Item>, raw: RawItem, k: nat) { exists x :: x in items && FromRaw(x, raw, k) }

  /** Every item of the plan was handed in. */
  ghost predicate AllGiven(items: seq<Item>, raws: seq<RawItem>) {
    forall x :: x in items ==> exists k :: 0 <= k < |raws| && FromRaw(x, raws[k], k)
  }

  ghost predicate SameItems(items: seq<Item>, raws: seq<RawItem>) {
    |items| == |raws| && UniqueIds(items) && AllThere(items, raws) && AllGiven(items, raws)
  }

  ghost predicate PlanFor(p: Plan, source: string, raws: seq<RawItem>) {
    p.version == 1 && p.source == source && SameItems(p.items, raws) && InStoredOrder(p.items) && AtNext(p)
  }

  lemma PermutedItems(built: seq<Item>, items: seq<Item>, raws: seq<RawItem>)
    requires BuiltOf(built, raws)
    requires multiset(items) == multiset(built) && UniqueIds(items)
    ensures SameItems(items, raws)
  {
    SameElements(items, built);
    SameLength(items, built);
    hide FromRaw, UniqueIds;
    forall k | 0 <= k < |raws| ensures IsThere(items, raws[k], k) {
      assert built[k] in built;
      assert built[k] in items && FromRaw(built[k], raws[k], k);
    }
    assert AllGiven(items, raws) by {
      forall x | x in items ensures exists k :: 0 <= k < |raws| && FromRaw(x, raws[k], k) {
        var k :| 0 <= k < |built| && built[k] == x;
        assert FromRaw(x, raws[k], k);
      }
    }
    hide AllThere, AllGiven;
  }

  lemma SameLength(a: seq<Item>, b: seq<Item>)
    requires multiset(a) == multiset(b)
    ensures |a| == |b|
  {
    assert |multiset(a)| == |a| && |multiset(b)| == |b|;
  }

  lemma NextOfBuilt(built: seq<Item>, items: seq<Item>, p: Plan)
    requires multiset(items) == multiset(built) && p.items == items
    requires var first := NextRunnable(SortByIndex(built));
      && p.active == (if first.Some? then Some(first.value.id) else None)
      && p.cursor == (if first.Some? then Some(first.value.index) else None)
    ensures AtNext(p)
  {
    var sorted := SortByIndex(built);
    SortKeeps(built);
    SameElements(sorted, items);
    NextRunnableLeast(sorted);
    SameRunnable(sorted, items);
    hide NextRunnable, SortByIndex, Runnable;
    var first := NextRunnable(sorted);
    if first.Some? { assert PointsAt(p, first.value); }
  }

  lemma SameRunnable(a: seq<Item>, b: seq<Item>)
    requires forall x :: x in a <==> x in b
    ensures forall x :: Runnable(a, x) <==> Runnable(b, x)
  {
    forall id ensures IsDone(a, id) <==> IsDone(b, id) {
      if IsDone(a, id) {
        var i :| 0 <= i < |a| && a[i].id == id && a[i].status == Done;
        assert a[i] in b;
      }
      if IsDone(b, id) {
        var i :| 0 <= i < |b| && b[i].id == id && b[i].status == Done;
        assert b[i] in a;
      }
    }
  }

  lemma CreatedFor(source: string, raws: seq<RawItem>)
    ensures var r := CreatePlan(source, raws);
      && (r.Ok? ==> Proper(raws) && PlanFor(r.value, source, raws))
      && (Proper(raws) && InRange(raws) ==> r.Ok?)
  {
    hide *;
    ProperIsFrom(raws);
    if raws != [] && BuildItems(raws, 0, {}).Ok? {
      BuiltAll(raws);
      var built := BuildItems(raws, 0, {}).value;
      Agreement.StoredKeeps(built);
      StoredIsOrdered(built);
      CreatedOf(source, raws, built);
    } else {
      NotCreated(source, raws);
    }
  }

  lemma ProperIsFrom(raws: seq<RawItem>)
    ensures Proper(raws) <==> raws != [] && BuildItems(raws, 0, {}).Ok?
  {
    BuiltFrom(raws, 0, {});
    hide ProperItem, IdGiven, BuildItems, FromRaw;
  }

  lemma BuiltAll(raws: seq<RawItem>)
    requires BuildItems(raws, 0, {}).Ok?
    ensures ProperFrom(raws, 0, {}) && BuiltOf(BuildItems(raws, 0, {}).value, raws)
  {
    hide ProperFrom, BuildItems, FromRaw;
    BuiltFrom(raws, 0, {});
    var built := BuildItems(raws, 0, {}).value;
    forall i | 0 <= i < |built| ensures FromRaw(built[i], raws[i], i) {
      assert FromRaw(built[i], raws[0 + i], 0 + i);
    }
  }

  lemma NotCreated(source: string, raws: seq<RawItem>)
    requires raws == [] || BuildItems(raws, 0, {}).Err?
    ensures CreatePlan(source, raws).Err?
  {
    hide BuildItems;
  }

  lemma CreatedOf(source: string, raws: seq<RawItem>, built: seq<Item>)
    requires raws != [] && BuildItems(raws, 0, {}) == Ok(built) && ProperFrom(raws, 0, {})
    requires BuiltOf(built, raws)
    requires multiset(StoredOrder(built)) == multiset(built) && InStoredOrder(StoredOrder(built))
    ensures var r := CreatePlan(source, raws);
      && (r.Ok? ==> PlanFor(r.value, source, raws))
      && (InRange(raws) ==> r.Ok?)
  {
    var items, first := StoredOrder(built), NextRunnable(SortByIndex(built));
    var p := Plan(1, source, items, if first.Some? then Some(first.value.id) else None,
                  if first.Some? then Some(first.value.index) else None);
    assert CreatePlan(source, raws) == if Integrity(p) then Ok(p) else Err(BAD_PLAN) by {
      hide BuildItems, StoredOrder, SortByIndex, NextRunnable, Integrity, FromRaw, ProperFrom, InStoredOrder;
    }
    DistinctBuilt(raws, built, items);
    hide *;
    NextOfBuilt(built, items, p);
    PermutedItems(built, items, raws);
    FirstFits(built, items, raws, p);
    assert PlanFor(p, source, raws) by { PlanForOf(p, source, raws); }
  }

  lemma PlanForOf(p: Plan, source: string, raws: seq<RawItem>)
    requires p.version == 1 && p.source == source && SameItems(p.items, raws) && InStoredOrder(p.items) && AtNext(p)
    ensures PlanFor(p, source, raws)
  {
    hide SameItems, InStoredOrder, AtNext;
  }

  /** Saving refuses only a cursor that is out of range. */
  lemma FirstFits(built: seq<Item>, items: seq<Item>, raws: seq<RawItem>, p: Plan)
    requires BuiltOf(built, raws)
    requires multiset(items) == multiset(built) && UniqueIds(items) && p.items == items && p.version == 1
    requires var first := NextRunnable(SortByIndex(built));
      && p.active == (if first.Some? then Some(first.value.id) else None)
      && p.cursor == (if first.Some? then Some(first.value.index) else None)
    ensures InRange(raws) ==> Integrity(p)
  {
    var sorted := SortByIndex(built);
    SortKeeps(built);
    SameElements(sorted, built);
    SameElements(items, built);
    SameLength(items, built);
    NextRunnableLeast(sorted);
    hide NextRunnable, SortByIndex, Runnable, StatusWord, TrimmedOf, IdGiven, Lower, Strip;
    var first := NextRunnable(sorted);
    if first.Some? {
      assert first.value in items && first.value in built;
      var k :| 0 <= k < |built| && built[k] == first.value;
      assert FromRaw(built[k], raws[k], k);
      assert HasId(items, first.value.id);
    }
  }

  lemma DistinctBuilt(raws: seq<RawItem>, built: seq<Item>, items: seq<Item>)
    requires ProperFrom(raws, 0, {}) && BuiltOf(built, raws)
    requires multiset(items) == multiset(built)
    ensures UniqueIds(items)
  {
    hide IdGiven, ProperItem, TrimmedOf, StatusWord;
    forall i, j | 0 <= i < j < |built| ensures built[i].id != built[j].id {
      assert built[i].id == IdGiven(raws[i], i) && built[j].id == IdGiven(raws[j], j);
    }
    UniquePermuted(built, items);
  }

  lemma UniquePermuted(a: seq<Item>, b: seq<Item>)
    requires UniqueIds(a) && multiset(b) == multiset(a)
    ensures UniqueIds(b)
  {
    forall i, j | 0 <= i < j < |b| ensures b[i].id != b[j].id {
      SameElements(a, b);
      if b[i].id == b[j].id {
        assert b[i] in a && b[j] in a && b[i] == b[j];
        Twice(b, i, j);
        Once(a, b[i]);
      }
    }
  }

  lemma Twice(b: seq<Item>, i: nat, j: nat)
    requires i < j < |b| && b[i] == b[j]
    ensures multiset(b)[b[i]] >= 2
  {
    assert b == b[..j] + [b[j]] + b[j + 1..];
    assert b[..j][i] == b[i] && b[i] in multiset(b[..j]);
  }

  lemma {:induction false} Once(a: seq<Item>, x: Item)
    requires UniqueIds(a)
    ensures multiset(a)[x] <= 1
  {
    if a != [] {
      Once(a[1..], x);
      assert a == [a[0]] + a[1..];
      if a[0] == x {
        assert forall i :: 0 <= i < |a[1..]| ==> a[1..][i] == a[i + 1] && a[i + 1].id != x.id;
        assert x !in multiset(a[1..]);
      }
    }
  }

  // ---------------------------------------------------------------- the start of a run

  predicate IsNew(s: Store, run: RunId, force: bool) { force || run !in s.plans || run !in s.contexts }

  /** An accepted new start leaves the plan that was asked for: one item for each one handed in and no other, each with
      its id, title, status, index and dependencies, in the stored order, with the cursor on the next item. It is
      accepted only if the items are proper, and, with indices in range and a proper seed, whenever they are. */
  lemma {:induction false} StartedPlan(s: Store, run: RunId, seed: seq<Context.Message>, source: string,
                                       raws: seq<RawItem>, memory: map<string, Json>, force: bool, cfg: Config,
                                       ck: string)
    requires IsNew(s, run, force)
    ensures var r := StartRun(s, run, seed, source, raws, memory, force, cfg, ck);
      && (r.Ok? ==> Proper(raws) && run in r.value.plans && PlanFor(r.value.plans[run], source, raws))
      && (r.Ok? ==> r.value.plans == s.plans[run := r.value.plans[run]])
      && (Proper(raws) && InRange(raws) && Context.InitContext(seed, memory).Ok? ==> r.Ok?)
  {
    CreatedFor(source, raws);
    hide CreatePlan, Context.InitContext, LatestSeq, Proper, PlanFor;
  }
}
