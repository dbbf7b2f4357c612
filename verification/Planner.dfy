/** The explicit plan of a run: items, their statuses, the cursor, and the scheduler that picks the next item. */
module Planner {
  import opened Prelude
  import opened Json
  import opened Text

  const BAD_PLAN := "invalid planner state"
  const EMPTY_ITEM_ID := "item has an empty plan_item_id"
  const DUPLICATE_ITEM := "duplicate plan_item_id"
  const NO_TITLE := "item must have non-empty title"
  const BAD_INDEX := "item must have non-negative sequence_index"
  const BAD_ITEM_STATUS := "invalid planner item status"
  const NO_ITEMS := "items cannot be empty"
  const NO_ITEM := "plan item not found"
  const ILLEGAL_STEP := "illegal planner status transition"
  const EMPTY_OUTPUT := "llm_output cannot be empty"
  const EMPTY_REF := "execution_id cannot be empty"

  datatype ItemStatus = Pending | InProgress | Blocked | Done | Failed

  datatype Item = Item(
    id: string,
    title: string,
    status: ItemStatus,
    index: nat,
    deps: seq<string>,
    output: Option<string>,
    outputs: seq<string>,
    refs: seq<string>,
    notes: seq<string>)

  datatype Plan = Plan(version: int, source: string, items: seq<Item>, active: Option<string>, cursor: Option<nat>)

  /** One plan item as a caller hands it in. */
  datatype RawItem = RawItem(id: Option<string>, title: string, status: Option<string>, index: Option<int>,
                             deps: seq<string>)

  predicate AllowedStep(current: ItemStatus, next: ItemStatus) {
    match current
    case Pending => true
    case InProgress => true
    case Blocked => next != Done
    case Done => next == Done
    case Failed => next == Pending || next == InProgress || next == Failed
  }

  function ParseStatus(raw: string): Option<ItemStatus> {
    var s := Lower(Strip(raw));
    if s == "pending" then Some(Pending)
    else if s == "in_progress" then Some(InProgress)
    else if s == "blocked" then Some(Blocked)
    else if s == "done" then Some(Done)
    else if s == "failed" then Some(Failed)
    else None
  }

  predicate UniqueIds(items: seq<Item>) {
    forall i, j :: 0 <= i < j < |items| ==> items[i].id != items[j].id
  }

  predicate HasId(items: seq<Item>, id: string) {
    exists i :: 0 <= i < |items| && items[i].id == id
  }

  function Ids(items: seq<Item>): (r: seq<string>)
    ensures |r| == |items| && forall i :: 0 <= i < |r| ==> r[i] == items[i].id
  {
    seq(|items|, i requires 0 <= i < |items| => items[i].id)
  }

  /** `_validate_integrity`. */
  predicate Integrity(p: Plan) {
    && p.version >= 1
    && UniqueIds(p.items)
    && (p.active.Some? ==> HasId(p.items, p.active.value))
    && (p.cursor.Some? ==> p.cursor.value < |p.items|)
  }

  // ---------------------------------------------------------------- order

  /** `x` goes before the first item that does not precede it, which keeps the sort stable. */
  function InsertByIndex(x: Item, sorted: seq<Item>): seq<Item> {
    if sorted == [] || x.index <= sorted[0].index then [x] + sorted
    else [sorted[0]] + InsertByIndex(x, sorted[1..])
  }

  function SortByIndex(items: seq<Item>): seq<Item> {
    if items == [] then [] else InsertByIndex(items[0], SortByIndex(items[1..]))
  }

  predicate StoredBefore(x: Item, y: Item) {
    x.index < y.index || (x.index == y.index && StrLe(x.id, y.id))
  }

  /** The order in which the item table is read back: by index, then by id. */
  function InsertStored(x: Item, sorted: seq<Item>): seq<Item> {
    if sorted == [] || StoredBefore(x, sorted[0]) then [x] + sorted
    else [sorted[0]] + InsertStored(x, sorted[1..])
  }

  function StoredOrder(items: seq<Item>): seq<Item> {
    if items == [] then [] else InsertStored(items[0], StoredOrder(items[1..]))
  }

  // ---------------------------------------------------------------- the scheduler

  predicate IsDone(items: seq<Item>, id: string) {
    exists i :: 0 <= i < |items| && items[i].id == id && items[i].status == Done
  }

  predicate Runnable(items: seq<Item>, x: Item) {
    x.status == Pending && forall d :: d in x.deps ==> IsDone(items, d)
  }

  function FirstRunnable(items: seq<Item>, ordered: seq<Item>): Option<Item> {
    if ordered == [] then None
    else if Runnable(items, ordered[0]) then Some(ordered[0])
    else FirstRunnable(items, ordered[1..])
  }

  function NextRunnable(items: seq<Item>): Option<Item> {
    FirstRunnable(items, SortByIndex(items))
  }

  lemma DoneOfAppend(items: seq<Item>, x: Item)
    ensures forall d :: IsDone(items + [x], d) <==> IsDone(items, d) || (x.id == d && x.status == Done)
  {
    forall d ensures IsDone(items + [x], d) <==> IsDone(items, d) || (x.id == d && x.status == Done) {
      if IsDone(items, d) {
        var j :| 0 <= j < |items| && items[j].id == d && items[j].status == Done;
        assert (items + [x])[j] == items[j];
      }
      if x.id == d && x.status == Done { assert (items + [x])[|items|] == x; }
    }
  }

  /** `next_runnable_item_from_state`: collect the done ids, sort, take the first item whose dependencies are all
      there. */
  method NextRunnableItem(p: Plan) returns (next: Option<Item>)
    ensures next == NextRunnable(p.items)
  {
    var doneIds: set<string> := {};
    for i := 0 to |p.items|
      invariant forall d :: d in doneIds <==> IsDone(p.items[..i], d)
    {
      assert p.items[..i + 1] == p.items[..i] + [p.items[i]];
      DoneOfAppend(p.items[..i], p.items[i]);
      if p.items[i].status == Done { doneIds := doneIds + {p.items[i].id}; }
    }
    assert p.items[..|p.items|] == p.items;
    var ordered := SortByIndex(p.items);
    var k := 0;
    while k < |ordered|
      invariant 0 <= k <= |ordered|
      invariant NextRunnable(p.items) == FirstRunnable(p.items, ordered[k..])
    {
      if ordered[k].status == Pending && forall d :: d in ordered[k].deps ==> d in doneIds {
        return Some(ordered[k]);
      }
      k := k + 1;
    }
    return None;
  }

  predicate ByIndex(s: seq<Item>) {
    forall i, j :: 0 <= i < j < |s| ==> s[i].index <= s[j].index
  }

  lemma InsertedAbove(x: Item, s: seq<Item>)
    requires s != [] && x.index > s[0].index
    requires multiset(InsertByIndex(x, s[1..])) == multiset(s[1..]) + multiset{x}
    ensures ByIndex(s) && ByIndex(InsertByIndex(x, s[1..])) ==> ByIndex(InsertByIndex(x, s))
  {
    var r := InsertByIndex(x, s[1..]);
    if ByIndex(s) && ByIndex(r) {
      forall i | 0 <= i < |r| ensures s[0].index <= r[i].index {
        assert r[i] in multiset(s[1..]) + multiset{x};
        if r[i] != x {
          var j :| 0 <= j < |s[1..]| && s[1..][j] == r[i];
          assert s[j + 1] == r[i];
        }
      }
    }
  }

  lemma {:induction false} InsertKeeps(x: Item, s: seq<Item>)
    ensures multiset(InsertByIndex(x, s)) == multiset(s) + multiset{x}
    ensures ByIndex(s) ==> ByIndex(InsertByIndex(x, s))
  {
    if s != [] {
      assert s == [s[0]] + s[1..];
      if x.index > s[0].index {
        InsertKeeps(x, s[1..]);
        InsertedAbove(x, s);
      }
    }
  }

  lemma {:induction false} SortKeeps(items: seq<Item>)
    ensures var r := SortByIndex(items);
      multiset(r) == multiset(items) && ByIndex(r)
  {
    if items != [] {
      SortKeeps(items[1..]);
      InsertKeeps(items[0], SortByIndex(items[1..]));
      assert items == [items[0]] + items[1..];
    }
  }

  predicate IsFirstRunnable(items: seq<Item>, ordered: seq<Item>, k: nat, y: Item) {
    k < |ordered| && ordered[k] == y && Runnable(items, y) && forall j :: 0 <= j < k ==> !Runnable(items, ordered[j])
  }

  lemma {:induction false} FirstRunnableIsFirst(items: seq<Item>, ordered: seq<Item>)
    ensures FirstRunnable(items, ordered).None? ==> forall x :: x in ordered ==> !Runnable(items, x)
    ensures FirstRunnable(items, ordered).Some? ==>
      exists k: nat :: IsFirstRunnable(items, ordered, k, FirstRunnable(items, ordered).value)
  {
    if ordered != [] {
      if Runnable(items, ordered[0]) {
        var k: nat := 0;
        assert IsFirstRunnable(items, ordered, k, FirstRunnable(items, ordered).value);
      } else {
        FirstRunnableIsFirst(items, ordered[1..]);
        var next := FirstRunnable(items, ordered[1..]);
        if next.Some? {
          var k: nat :| IsFirstRunnable(items, ordered[1..], k, next.value);
          forall j | 0 <= j < k + 1 ensures !Runnable(items, ordered[j]) {
            if j > 0 { assert ordered[j] == ordered[1..][j - 1]; }
          }
          assert IsFirstRunnable(items, ordered, k + 1, next.value);
        } else {
          forall x | x in ordered ensures !Runnable(items, x) {
            if x != ordered[0] { assert x in ordered[1..]; }
          }
        }
      }
    }
  }

  /** The scheduler answers with a runnable item of least sequence index, and with none only when no item is
      runnable. */
  lemma NextRunnableLeast(items: seq<Item>)
    ensures NextRunnable(items).None? ==> forall x :: x in items ==> !Runnable(items, x)
    ensures NextRunnable(items).Some? ==>
      var y := NextRunnable(items).value;
      y in items && Runnable(items, y) && forall x :: x in items && Runnable(items, x) ==> y.index <= x.index
  {
    var s := SortByIndex(items);
    SortKeeps(items);
    SameElements(items, s);
    FirstRunnableIsFirst(items, s);
    if NextRunnable(items).Some? {
      var k: nat :| IsFirstRunnable(items, s, k, NextRunnable(items).value);
      FirstIsLeast(items, s, k, NextRunnable(items).value);
    }
  }

  lemma SameElements(a: seq<Item>, b: seq<Item>)
    requires multiset(a) == multiset(b)
    ensures forall x :: x in a <==> x in b
  {
    forall x ensures x in a <==> x in b {
      assert x in a <==> x in multiset(a);
      assert x in b <==> x in multiset(b);
    }
  }

  lemma FirstIsLeast(items: seq<Item>, s: seq<Item>, k: nat, y: Item)
    requires ByIndex(s) && IsFirstRunnable(items, s, k, y)
    ensures forall x :: x in s && Runnable(items, x) ==> y.index <= x.index
  {
    forall x | x in s && Runnable(items, x) ensures y.index <= x.index {
      var j :| 0 <= j < |s| && s[j] == x;
      assert j >= k;
    }
  }

  // ---------------------------------------------------------------- the planner operations

  function FindItem(items: seq<Item>, id: string): (r: Option<nat>)
    ensures r.Some? ==> r.value < |items| && items[r.value].id == id
    ensures r.None? <==> !HasId(items, id)
  {
    if items == [] then None
    else if items[0].id == id then Some(0)
    else
      match FindItem(items[1..], id)
      case None => None
      case Some(k) => Some(k + 1)
  }

  /** Bump the version and save; saving validates the plan first. */
  function Save(p: Plan): Outcome<Plan> {
    var q := p.(version := p.version + 1);
    if Integrity(q) then Ok(q) else Err(BAD_PLAN)
  }

  function NormalizeList(raw: seq<string>): seq<string> {
    if raw == [] then []
    else if Strip(raw[0]) == "" then NormalizeList(raw[1..])
    else [Strip(raw[0])] + NormalizeList(raw[1..])
  }

  function BuildItems(raws: seq<RawItem>, k: nat, seen: set<string>): Outcome<seq<Item>>
    requires k <= |raws|
    decreases |raws| - k
  {
    if k == |raws| then Ok([])
    else
      var raw := raws[k];
      var id := Strip(if raw.id.Some? && raw.id.value != "" then raw.id.value else "step_" + Digits(k));
      var status := if raw.status.Some? then ParseStatus(raw.status.value) else Some(Pending);
      var index: int := if raw.index.Some? then raw.index.value else k;
      if id == "" then Err(EMPTY_ITEM_ID)
      else if id in seen then Err(DUPLICATE_ITEM)
      else if Strip(raw.title) == "" then Err(NO_TITLE)
      else if index < 0 then Err(BAD_INDEX)
      else if status.None? then Err(BAD_ITEM_STATUS)
      else
        match BuildItems(raws, k + 1, seen + {id})
        case Err(e) => Err(e)
        case Ok(rest) =>
          Ok([Item(id, Strip(raw.title), status.value, index, NormalizeList(raw.deps), None, [], [], [])] + rest)
  }

  /** `create_plan`, as the store gives it back. */
  function CreatePlan(source: string, raws: seq<RawItem>): Outcome<Plan> {
    if raws == [] then Err(NO_ITEMS)
    else
      match BuildItems(raws, 0, {})
      case Err(e) => Err(e)
      case Ok(items) =>
        var first := NextRunnable(SortByIndex(items));
        var p := Plan(0, source, StoredOrder(items),
          if first.Some? then Some(first.value.id) else None,
          if first.Some? then Some(first.value.index) else None);
        Save(p)
  }

  function SetActive(p: Plan, id: string): Outcome<Plan> {
    match FindItem(p.items, id)
    case None => Err(NO_ITEM)
    case Some(k) => Save(p.(active := Some(id), cursor := Some(p.items[k].index)))
  }

  /** Move item `k` to `next`, then the cursor if the active item is done. */
  function Transition(p: Plan, k: nat, next: ItemStatus, note: Option<string>): Outcome<Plan>
    requires k < |p.items|
  {
    if !AllowedStep(p.items[k].status, next) then Err(ILLEGAL_STEP)
    else
      var notes :=
        if note.Some? && Strip(note.value) != "" then p.items[k].notes + [Strip(note.value)]
        else p.items[k].notes;
      var items := p.items[k := p.items[k].(status := next, notes := notes)];
      var following := if next == Done && p.active == Some(p.items[k].id) then NextRunnable(items) else None;
      Save(p.(items := items,
              active := if following.Some? then Some(following.value.id) else p.active,
              cursor := if following.Some? then Some(following.value.index) else p.cursor))
  }

  function UpdateStatus(p: Plan, id: string, raw: string, note: Option<string>): Outcome<Plan> {
    match FindItem(p.items, id)
    case None => Err(NO_ITEM)
    case Some(k) =>
      match ParseStatus(raw)
      case None => Err(BAD_ITEM_STATUS)
      case Some(next) => Transition(p, k, next, note)
  }

  function AttachOutput(p: Plan, id: string, output: string): Outcome<Plan> {
    match FindItem(p.items, id)
    case None => Err(NO_ITEM)
    case Some(k) =>
      var text := Strip(output);
      if text == "" then Err(EMPTY_OUTPUT)
      else Save(p.(items := p.items[k := p.items[k].(output := Some(text), outputs := p.items[k].outputs + [text])]))
  }

  function AttachRef(p: Plan, id: string, exec: string): Outcome<Plan> {
    match FindItem(p.items, id)
    case None => Err(NO_ITEM)
    case Some(k) =>
      var ref := Strip(exec);
      if ref == "" then Err(EMPTY_REF)
      else if ref in p.items[k].refs then Save(p)
      else Save(p.(items := p.items[k := p.items[k].(refs := p.items[k].refs + [ref])]))
  }

  // ---------------------------------------------------------------- progress

  /** Dependencies name plan items, and every item lies above its dependencies in some ranking: the plan has no
      cycle. */
  predicate WellFounded(items: seq<Item>, rank: map<string, nat>) {
    forall i, d :: 0 <= i < |items| && d in items[i].deps ==>
      HasId(items, d) && d in rank && items[i].id in rank && rank[d] < rank[items[i].id]
  }

  predicate PendingOrDone(items: seq<Item>) {
    forall i :: 0 <= i < |items| ==> items[i].status == Pending || items[i].status == Done
  }

  predicate AllDone(items: seq<Item>) {
    forall i :: 0 <= i < |items| ==> items[i].status == Done
  }

  lemma DoneIfNotPending(items: seq<Item>, id: string)
    requires HasId(items, id)
    requires forall i :: 0 <= i < |items| && items[i].id == id ==> items[i].status == Done
    ensures IsDone(items, id)
  {
    var i :| 0 <= i < |items| && items[i].id == id;
  }

  /** Some pending item has all its dependencies done. */
  lemma {:induction false} PendingMeansRunnable(items: seq<Item>, rank: map<string, nat>, k: nat)
    requires WellFounded(items, rank) && PendingOrDone(items)
    requires k < |items| && items[k].status == Pending
    ensures exists x :: x in items && Runnable(items, x)
    decreases if items[k].id in rank then rank[items[k].id] + 1 else 0
  {
    if Runnable(items, items[k]) {
      assert items[k] in items;
    } else {
      var d :| d in items[k].deps && !IsDone(items, d);
      if forall i :: 0 <= i < |items| && items[i].id == d ==> items[i].status == Done {
        DoneIfNotPending(items, d);
      } else {
        var j :| 0 <= j < |items| && items[j].id == d && items[j].status != Done;
        PendingMeansRunnable(items, rank, j);
      }
    }
  }

  /** The scheduler is never stuck: it gives up exactly when every item is done. */
  lemma NoneMeansAllDone(items: seq<Item>, rank: map<string, nat>)
    requires WellFounded(items, rank) && PendingOrDone(items)
    ensures NextRunnable(items).None? <==> AllDone(items)
  {
    NextRunnableLeast(items);
    if !AllDone(items) {
      var k :| 0 <= k < |items| && items[k].status != Done;
      PendingMeansRunnable(items, rank, k);
    }
  }

  function CountPending(items: seq<Item>): nat {
    if items == [] then 0 else (if items[0].status == Pending then 1 else 0) + CountPending(items[1..])
  }

  lemma {:induction false} CountDrops(items: seq<Item>, k: nat, x: Item)
    requires k < |items| && items[k].status == Pending && x.status != Pending
    ensures CountPending(items[k := x]) == CountPending(items) - 1
  {
    if k > 0 {
      assert items[k := x][1..] == items[1..][k - 1 := x];
      CountDrops(items[1..], k - 1, x);
    } else {
      assert items[k := x][1..] == items[1..];
    }
  }

  predicate Workable(p: Plan, rank: map<string, nat>) {
    && Integrity(p) && PendingOrDone(p.items) && WellFounded(p.items, rank)
    && forall i :: 0 <= i < |p.items| ==> p.items[i].index < |p.items|
  }

  /** The items after one pending item is marked as done. */
  lemma MarkedDone(items: seq<Item>, k: nat)
    requires UniqueIds(items) && k < |items| && items[k].status == Pending
    ensures var after := items[k := items[k].(status := Done)];
      && Ids(after) == Ids(items)
      && CountPending(after) == CountPending(items) - 1
      && forall id :: IsDone(after, id) <==> IsDone(items, id) || id == items[k].id
  {
    var after := items[k := items[k].(status := Done)];
    CountDrops(items, k, after[k]);
    assert Ids(after) == Ids(items);
    forall id ensures IsDone(after, id) <==> IsDone(items, id) || id == items[k].id {
      if IsDone(items, id) {
        var j :| 0 <= j < |items| && items[j].id == id && items[j].status == Done;
        assert after[j] == items[j];
      }
      if id == items[k].id { assert after[k].id == id; }
    }
  }

  lemma NextRunnableIndexed(items: seq<Item>)
    requires NextRunnable(items).Some?
    ensures exists i :: 0 <= i < |items| && items[i] == NextRunnable(items).value && Runnable(items, items[i])
  {
    NextRunnableLeast(items);
    var i :| 0 <= i < |items| && items[i] == NextRunnable(items).value;
  }

  /** The plan after the scheduler's answer is marked as done. */
  lemma NextMarked(p: Plan, rank: map<string, nat>, k: nat)
    requires Workable(p, rank) && k < |p.items| && Runnable(p.items, p.items[k])
    ensures var r := Transition(p, k, Done, None);
      && r.Ok? && Workable(r.value, rank) && r.value.items == p.items[k := p.items[k].(status := Done)]
  {
    MarkedDone(p.items, k);
    var items := p.items[k := p.items[k].(status := Done)];
    if NextRunnable(items).Some? {
      NextRunnableIndexed(items);
    }
    WellFoundedKept(p.items, items, rank);
    IntegrityKept(p, items);
  }

  lemma IntegrityKept(p: Plan, items: seq<Item>)
    requires Integrity(p) && Ids(items) == Ids(p.items)
    ensures Integrity(p.(version := p.version + 1, items := items))
  {
    forall i | 0 <= i < |items| ensures items[i].id == p.items[i].id { assert Ids(items)[i] == Ids(p.items)[i]; }
    if p.active.Some? {
      var i :| 0 <= i < |p.items| && p.items[i].id == p.active.value;
      assert items[i].id == p.active.value;
    }
  }

  lemma FoundAt(items: seq<Item>, i: nat)
    requires UniqueIds(items) && i < |items|
    ensures FindItem(items, items[i].id) == Some(i)
  {
  }

  lemma UpdateToDone(p: Plan, i: nat)
    requires UniqueIds(p.items) && i < |p.items|
    ensures UpdateStatus(p, p.items[i].id, "done", None) == Transition(p, i, Done, None)
  {
    FoundAt(p.items, i);
    DoneParses();
  }

  /** `q` is `p` with the pending item `x` done and nothing else about the items changed. */
  ghost predicate OneMoreDone(p: Plan, q: Plan, x: Item) {
    && CountPending(q.items) == CountPending(p.items) - 1
    && Ids(q.items) == Ids(p.items)
    && (forall i :: 0 <= i < |p.items| ==> q.items[i].deps == p.items[i].deps)
    && (forall id :: IsDone(q.items, id) <==> IsDone(p.items, id) || id == x.id)
  }

  /** What marking the scheduler's answer as done does to the plan. */
  lemma CompleteNext(p: Plan, rank: map<string, nat>)
    requires Workable(p, rank) && NextRunnable(p.items).Some?
    ensures var x := NextRunnable(p.items).value;
      && x in p.items && Runnable(p.items, x)
      && var r := UpdateStatus(p, x.id, "done", None);
      && r.Ok? && Workable(r.value, rank) && OneMoreDone(p, r.value, x)
  {
    NextRunnableIndexed(p.items);
    var i :| 0 <= i < |p.items| && p.items[i] == NextRunnable(p.items).value && Runnable(p.items, p.items[i]);
    UpdateToDone(p, i);
    NextMarked(p, rank, i);
    MarkedDone(p.items, i);
  }

  lemma WellFoundedKept(items: seq<Item>, after: seq<Item>, rank: map<string, nat>)
    requires WellFounded(items, rank) && Ids(after) == Ids(items)
    requires forall i :: 0 <= i < |items| ==> after[i].deps == items[i].deps
    ensures WellFounded(after, rank)
  {
    forall i | 0 <= i < |after| ensures after[i].id == items[i].id { assert Ids(after)[i] == Ids(items)[i]; }
    forall d | HasId(items, d) ensures HasId(after, d) {
      var i :| 0 <= i < |items| && items[i].id == d;
      assert after[i].id == d;
    }
  }

  lemma DoneParses()
    ensures ParseStatus("done") == Some(Done)
  {
    StripTrims("done");
    assert Lower("done") == "done";
  }

  /** `x` is the item the scheduler points at: runnable, of least index, with the cursor on it. */
  ghost predicate PointsAt(p: Plan, x: Item) {
    && x in p.items && Runnable(p.items, x) && p.active == Some(x.id) && p.cursor == Some(x.index)
    && forall y :: y in p.items && Runnable(p.items, y) ==> x.index <= y.index
  }

  /** Completing the active item moves the cursor to a runnable item of least index; it stays only if nothing is
      runnable. */
  lemma CompletionMovesOn(p: Plan, id: string, note: Option<string>)
    requires p.active == Some(id)
    ensures var r := UpdateStatus(p, id, "done", note);
      r.Ok? ==>
        if exists y :: y in r.value.items && Runnable(r.value.items, y) then exists x :: PointsAt(r.value, x)
        else r.value.active == p.active && r.value.cursor == p.cursor
  {
    var r := UpdateStatus(p, id, "done", note);
    if r.Ok? {
      DoneParses();
      NextRunnableLeast(r.value.items);
      hide NextRunnable, FindItem, ParseStatus, Runnable, Strip;
      var k := FindItem(p.items, id).value;
      assert r == Transition(p, k, Done, note);
      if NextRunnable(r.value.items).Some? { assert PointsAt(r.value, NextRunnable(r.value.items).value); }
    }
  }

  /** Mark the scheduler's answer as done until it gives none. `order` lists the completed ids. */
  function Drain(p: Plan, fuel: nat): (seq<string>, Plan)
    decreases fuel
  {
    if fuel == 0 || NextRunnable(p.items).None? then ([], p)
    else
      var id := NextRunnable(p.items).value.id;
      match UpdateStatus(p, id, "done", None)
      case Err(_) => ([], p)
      case Ok(q) =>
        var (order, last) := Drain(q, fuel - 1);
        ([id] + order, last)
  }

  predicate DepsFirst(items: seq<Item>, order: seq<string>) {
    forall i, k, d :: 0 <= i < |items| && 0 <= k < |order| && items[i].id == order[k] && d in items[i].deps ==>
      IsDone(items, d) || d in order[..k]
  }

  /** Everything is done, in as many steps as items were pending, dependencies first. */
  predicate Drained(p: Plan, order: seq<string>, last: Plan) {
    |order| == CountPending(p.items) && AllDone(last.items) && Ids(last.items) == Ids(p.items)
      && DepsFirst(p.items, order)
  }

  /** Working a plan off always completes it. */
  lemma {:induction false} DrainCompletes(p: Plan, rank: map<string, nat>, fuel: nat)
    requires Workable(p, rank)
    requires fuel >= CountPending(p.items)
    ensures Drained(p, Drain(p, fuel).0, Drain(p, fuel).1)
    decreases fuel
  {
    hide UpdateStatus, OneMoreDone, Drained, Workable;
    if NextRunnable(p.items).None? {
      NothingToDrain(p, rank, fuel);
    } else {
      PendingLeft(p.items);
      var x, q := DrainUnfolds(p, rank, fuel);
      DrainCompletes(q, rank, fuel - 1);
      DrainedCons(p, q, x, Drain(q, fuel - 1).0, Drain(q, fuel - 1).1);
    }
  }

  lemma DrainedCons(p: Plan, q: Plan, x: Item, rest: seq<string>, last: Plan)
    requires UniqueIds(p.items) && x in p.items && Runnable(p.items, x)
    requires OneMoreDone(p, q, x) && Drained(q, rest, last)
    ensures Drained(p, [x.id] + rest, last)
  {
    DepsFirstCons(p, q, x, rest);
  }

  lemma NothingToDrain(p: Plan, rank: map<string, nat>, fuel: nat)
    requires Workable(p, rank) && NextRunnable(p.items).None?
    ensures Drain(p, fuel) == ([], p) && Drained(p, [], p)
  {
    NoneMeansAllDone(p.items, rank);
    NonePendingCountsZero(p.items);
  }

  lemma PendingLeft(items: seq<Item>)
    requires NextRunnable(items).Some?
    ensures CountPending(items) > 0
  {
    NextRunnableIndexed(items);
    NonePendingCountsZero(items);
  }

  lemma DrainUnfolds(p: Plan, rank: map<string, nat>, fuel: nat) returns (x: Item, q: Plan)
    requires Workable(p, rank) && fuel > 0 && NextRunnable(p.items).Some?
    ensures Drain(p, fuel) == ([x.id] + Drain(q, fuel - 1).0, Drain(q, fuel - 1).1)
    ensures x in p.items && Runnable(p.items, x) && OneMoreDone(p, q, x) && Workable(q, rank)
    ensures CountPending(q.items) == CountPending(p.items) - 1 && UniqueIds(p.items)
  {
    CompleteNext(p, rank);
    x := NextRunnable(p.items).value;
    q := UpdateStatus(p, x.id, "done", None).value;
  }

  lemma {:induction false} NonePendingCountsZero(items: seq<Item>)
    ensures CountPending(items) == 0 <==> forall i :: 0 <= i < |items| ==> items[i].status != Pending
  {
    if items != [] {
      NonePendingCountsZero(items[1..]);
      assert items == [items[0]] + items[1..];
    }
  }

  lemma DepsFirstCons(p: Plan, q: Plan, x: Item, rest: seq<string>)
    requires UniqueIds(p.items) && x in p.items && Runnable(p.items, x) && DepsFirst(q.items, rest)
    requires OneMoreDone(p, q, x)
    ensures DepsFirst(p.items, [x.id] + rest)
  {
    var items, order := p.items, [x.id] + rest;
    forall i, k, d | 0 <= i < |items| && 0 <= k < |order| && items[i].id == order[k] && d in items[i].deps
      ensures IsDone(items, d) || d in order[..k]
    {
      if k == 0 {
        var j :| 0 <= j < |items| && items[j] == x;
        assert j == i;
      } else {
        assert Ids(q.items)[i] == rest[k - 1] && order[..k] == [x.id] + rest[..k - 1];
        assert q.items[i].id == rest[k - 1] && d in q.items[i].deps;
      }
    }
  }
}
