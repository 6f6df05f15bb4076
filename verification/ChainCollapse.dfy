/**
 * Operation chains in the activity list (app/api/activity.py, `_operation_activity_items`): the
 * ancestors missing from the page are pulled in, every operation finds the row it rides under, and
 * the chains are collapsed. `depends_on` may form cycles.
 */
module ChainCollapse {
  import opened Wrappers
  import opened IdLists

  datatype Operation = Operation(id: int, dependsOn: Option<int>)

  // ---- Pulling in ancestors

  function Ids(ops: seq<Operation>): set<int> {
    set i | 0 <= i < |ops| :: ops[i].id
  }

  function Needs(ops: seq<Operation>): set<int> {
    set i | 0 <= i < |ops| && ops[i].dependsOn.Some? :: ops[i].dependsOn.value
  }

  /** The rows the filters let through, by id. */
  predicate Keyed(scoped: map<int, Operation>) {
    forall id :: id in scoped ==> scoped[id].id == id
  }

  predicate Drawn(ops: seq<Operation>, scoped: map<int, Operation>) {
    && (forall i :: 0 <= i < |ops| ==> ops[i].id in scoped && scoped[ops[i].id] == ops[i])
    && (forall i, j :: 0 <= i < j < |ops| ==> ops[i].id != ops[j].id)
  }

  /** `to` is an ancestor of `from`, `n` dependencies up, every one of them within the filters. */
  predicate Ancestor(scoped: map<int, Operation>, from: int, to: int, n: nat)
    decreases n
  {
    && from in scoped
    && if n == 0 then from == to
       else scoped[from].dependsOn.Some? && Ancestor(scoped, scoped[from].dependsOn.value, to, n - 1)
  }

  ghost predicate Needed(scoped: map<int, Operation>, window: seq<Operation>, id: int) {
    exists i: nat, n: nat :: i < |window| && Ancestor(scoped, window[i].id, id, n)
  }

  lemma {:induction false} AncestorAbove(scoped: map<int, Operation>, from: int, to: int, n: nat)
    requires to in scoped && scoped[to].dependsOn.Some? && scoped[to].dependsOn.value in scoped
    requires Ancestor(scoped, from, to, n)
    ensures Ancestor(scoped, from, scoped[to].dependsOn.value, n + 1)
    decreases n
  {
    if n > 0 {
      AncestorAbove(scoped, scoped[from].dependsOn.value, to, n - 1);
    } else {
      assert Ancestor(scoped, scoped[from].dependsOn.value, scoped[from].dependsOn.value, 0);
    }
  }

  lemma {:induction false} NeededAbove(scoped: map<int, Operation>, window: seq<Operation>, id: int)
    requires Needed(scoped, window, id) && id in scoped && scoped[id].dependsOn.Some?
             && scoped[id].dependsOn.value in scoped
    ensures Needed(scoped, window, scoped[id].dependsOn.value)
  {
    var i: nat, n: nat :| i < |window| && Ancestor(scoped, window[i].id, id, n);
    AncestorAbove(scoped, window[i].id, id, n);
  }

  predicate Closed(ops: seq<Operation>, scoped: map<int, Operation>) {
    forall i :: 0 <= i < |ops| && ops[i].dependsOn.Some? && ops[i].dependsOn.value in scoped
        ==> ops[i].dependsOn.value in Ids(ops)
  }

  lemma {:induction false} ClosedHoldsAncestors(ops: seq<Operation>, scoped: map<int, Operation>, from: int, to: int,
          n: nat)
    requires Drawn(ops, scoped) && Closed(ops, scoped) && from in Ids(ops) && Ancestor(scoped, from, to, n)
    ensures to in Ids(ops)
    decreases n
  {
    if n > 0 {
      var i :| 0 <= i < |ops| && ops[i].id == from;
      ClosedHoldsAncestors(ops, scoped, scoped[from].dependsOn.value, to, n - 1);
    }
  }

  /** The rows with the given ids that the filters let through. */
  method Fetch(scoped: map<int, Operation>, ids: set<int>) returns (rows: seq<Operation>)
    requires Keyed(scoped)
    ensures Drawn(rows, scoped) && Ids(rows) == ids * scoped.Keys
  {
    var found := SortedIds(ids * scoped.Keys);
    assert forall i :: 0 <= i < |found| ==> found[i] in found;
    rows := seq(|found|, i requires 0 <= i < |found| && found[i] in scoped => scoped[found[i]]);
    forall id ensures id in Ids(rows) <==> id in ids * scoped.Keys {
      if id in found {
        var i :| 0 <= i < |found| && found[i] == id;
        assert rows[i].id == id;
      }
    }
  }

  /** Every dependency within the filters is among `ids`. */
  predicate Known(ops: seq<Operation>, scoped: map<int, Operation>, ids: set<int>) {
    forall i :: 0 <= i < |ops| && ops[i].dependsOn.Some? && ops[i].dependsOn.value in scoped
        ==> ops[i].dependsOn.value in ids
  }

  ghost predicate AllNeeded(scoped: map<int, Operation>, window: seq<Operation>, ids: set<int>) {
    forall id :: id in ids && id in scoped ==> Needed(scoped, window, id)
  }

  /** The loop's state: `ops` drawn so far, `missing` named by them and not drawn yet. */
  ghost predicate Drawing(scoped: map<int, Operation>, window: seq<Operation>, ops: seq<Operation>, missing: set<int>) {
    && Drawn(ops, scoped) && window <= ops && missing !! Ids(ops)
    && Known(ops, scoped, Ids(ops) + missing)
    && AllNeeded(scoped, window, Ids(ops) + missing)
  }

  lemma {:induction false} Begin(scoped: map<int, Operation>, window: seq<Operation>)
    requires Keyed(scoped) && Drawn(window, scoped)
    ensures Drawing(scoped, window, window, Needs(window) - Ids(window))
  {
    forall id | id in Ids(window) ensures Needed(scoped, window, id) {
      var i :| 0 <= i < |window| && window[i].id == id;
      assert Ancestor(scoped, window[i].id, id, 0);
    }
    forall id | id in Needs(window) && id in scoped ensures Needed(scoped, window, id) {
      var i :| 0 <= i < |window| && window[i].dependsOn == Some(id);
      assert window[i].id in Ids(window);
      NeededAbove(scoped, window, window[i].id);
    }
  }

  /** One turn of the loop: the missing rows join, and what they need is missing next. Either a row
      was drawn, or nothing is missing any more. */
  lemma {:induction false} Draw(scoped: map<int, Operation>, window: seq<Operation>, ops: seq<Operation>,
          missing: set<int>, parents: seq<Operation>)
    requires Keyed(scoped) && Drawing(scoped, window, ops, missing)
    requires Drawn(parents, scoped) && Ids(parents) == missing * scoped.Keys
    ensures Ids(ops + parents) == Ids(ops) + Ids(parents)
    ensures Drawing(scoped, window, ops + parents, Needs(parents) - Ids(ops + parents))
    ensures Needs(parents) <= Ids(ops + parents) || scoped.Keys - Ids(ops + parents) < scoped.Keys - Ids(ops)
  {
    UnionOfIds(ops, parents);
    Disjointly(ops, parents, scoped);
    var next := Needs(parents) - Ids(ops + parents);
    forall id | id in next && id in scoped ensures Needed(scoped, window, id) {
      var i :| 0 <= i < |parents| && parents[i].dependsOn == Some(id);
      assert parents[i].id in Ids(parents) && parents[i].id in missing;
      NeededAbove(scoped, window, parents[i].id);
    }
    if next != {} {
      var id := Member(next);
      var i :| 0 <= i < |parents| && parents[i].dependsOn == Some(id);
      assert parents[i].id in Ids(parents);
      assert parents[i].id in scoped.Keys - Ids(ops) && parents[i].id !in scoped.Keys - Ids(ops + parents);
    }
  }

  lemma {:induction false} End(scoped: map<int, Operation>, window: seq<Operation>, ops: seq<Operation>)
    requires Drawing(scoped, window, ops, {})
    ensures Closed(ops, scoped)
    ensures forall id :: id in Ids(ops) <==> Needed(scoped, window, id)
  {
    forall id | Needed(scoped, window, id) ensures id in Ids(ops) {
      var i: nat, n: nat :| i < |window| && Ancestor(scoped, window[i].id, id, n);
      assert ops[i] == window[i];
      ClosedHoldsAncestors(ops, scoped, window[i].id, id, n);
    }
  }

  /**
   * The page's rows and all their ancestors within the filters, and nothing else. The loop ends on
   * cycles too: every turn draws new rows or finds none.
   */
  method PullInAncestors(scoped: map<int, Operation>, window: seq<Operation>) returns (ops: seq<Operation>)
    requires Keyed(scoped) && Drawn(window, scoped)
    ensures Drawn(ops, scoped) && window <= ops && Closed(ops, scoped)
    ensures forall id :: id in Ids(ops) <==> Needed(scoped, window, id)
  {
    ops := window;
    var have := Ids(ops);
    var missing := Needs(ops) - have;
    Begin(scoped, window);
    while missing != {}
      invariant have == Ids(ops) && Drawing(scoped, window, ops, missing)
      decreases scoped.Keys - have, missing != {}
    {
      var parents := Fetch(scoped, missing);
      Draw(scoped, window, ops, missing, parents);
      ops := ops + parents;
      have := have + Ids(parents);
      missing := Needs(parents) - have;
    }
    End(scoped, window, ops);
  }

  lemma {:induction false} UnionOfIds(a: seq<Operation>, b: seq<Operation>)
    ensures Ids(a + b) == Ids(a) + Ids(b)
  {
    forall id | id in Ids(a) + Ids(b) ensures id in Ids(a + b) {
      if id in Ids(a) {
        var i :| 0 <= i < |a| && a[i].id == id;
        assert (a + b)[i].id == id;
      } else {
        var i :| 0 <= i < |b| && b[i].id == id;
        assert (a + b)[|a| + i].id == id;
      }
    }
  }

  lemma {:induction false} Disjointly(a: seq<Operation>, b: seq<Operation>, scoped: map<int, Operation>)
    requires Drawn(a, scoped) && Drawn(b, scoped) && Ids(a) !! Ids(b)
    ensures Drawn(a + b, scoped)
  {
    forall i, j | 0 <= i < |a| && 0 <= j < |b| ensures a[i].id != b[j].id {
      assert a[i].id in Ids(a) && b[j].id in Ids(b);
    }
  }

  // ---- The row an operation rides under

  datatype Item = Item(id: int, dependsOn: Option<int>, followup: bool, runId: int, visible: bool)

  predicate ById(items: map<int, Item>) {
    forall id :: id in items ==> items[id].id == id
  }

  /** What an item rides under directly: what a follow-up depends on, or the earlier step of its
      own run. */
  function Above(items: map<int, Item>, id: int): (above: Option<int>)
    requires id in items
    ensures above.Some? ==> above.value in items
  {
    var item := items[id];
    if item.dependsOn.None? || item.dependsOn.value !in items then None
    else if !item.followup && items[item.dependsOn.value].runId != item.runId then None
    else item.dependsOn
  }

  function Up(items: map<int, Item>, id: int, n: nat): (up: Option<int>)
    requires id in items
    ensures up.Some? ==> up.value in items
    decreases n
  {
    if n == 0 then Some(id)
    else if Above(items, id).None? then None
    else Up(items, Above(items, id).value, n - 1)
  }

  ghost predicate OnCycle(items: map<int, Item>, id: int)
    requires id in items
  {
    exists n: nat :: n > 0 && Up(items, id, n) == Some(id)
  }

  /** Where a chain ends: an item that rides under nothing, or one that rides under itself. */
  ghost predicate Top(items: map<int, Item>, id: int)
    requires id in items
  {
    Above(items, id).None? || OnCycle(items, id)
  }

  ghost predicate RootAt(items: map<int, Item>, id: int, root: int, n: nat)
    requires id in items
  {
    && Up(items, id, n) == Some(root) && Top(items, root)
    && forall k: nat :: k < n ==> Up(items, id, k).Some? && !Top(items, Up(items, id, k).value)
  }

  /** The root of an item is the first end on its way up. */
  ghost predicate IsRoot(items: map<int, Item>, id: int, root: int)
    requires id in items
  {
    exists n: nat :: RootAt(items, id, root, n)
  }

  lemma {:induction false} RootIsUnique(items: map<int, Item>, id: int, a: int, b: int)
    requires id in items && IsRoot(items, id, a) && IsRoot(items, id, b)
    ensures a == b
  {
    var m: nat :| RootAt(items, id, a, m);
    var n: nat :| RootAt(items, id, b, n);
    NoEarlierRoot(items, id, a, m, b, n);
    NoEarlierRoot(items, id, b, n, a, m);
  }

  lemma {:induction false} NoEarlierRoot(items: map<int, Item>, id: int, a: int, m: nat, b: int, n: nat)
    requires id in items && RootAt(items, id, a, m) && RootAt(items, id, b, n)
    ensures m >= n
  {
  }

  /** A root is its own root. */
  lemma {:induction false} RootOfRoot(items: map<int, Item>, id: int, root: int)
    requires id in items && IsRoot(items, id, root)
    ensures root in items && IsRoot(items, root, root)
  {
    var n: nat :| RootAt(items, id, root, n);
    assert RootAt(items, root, root, 0);
  }

  lemma {:induction false} UpStays(items: map<int, Item>, id: int, n: nat, closed: set<int>)
    requires id in items && id in closed && closed <= items.Keys
    requires forall x :: x in closed && Above(items, x).Some? ==> Above(items, x).value in closed
    ensures Up(items, id, n).Some? ==> Up(items, id, n).value in closed
    decreases n
  {
    if n > 0 && Above(items, id).Some? {
      UpStays(items, Above(items, id).value, n - 1, closed);
    }
  }

  lemma {:induction false} NotOnCycle(items: map<int, Item>, id: int, closed: set<int>)
    requires id in items && id !in closed && closed <= items.Keys
    requires Above(items, id).Some? && Above(items, id).value in closed
    requires forall x :: x in closed && Above(items, x).Some? ==> Above(items, x).value in closed
    ensures !OnCycle(items, id)
  {
    forall n: nat | n > 0 ensures Up(items, id, n) != Some(id) {
      UpStays(items, Above(items, id).value, n - 1, closed);
    }
  }

  /** Stop `i` of a way that has come to `at`. */
  function Stop(path: seq<int>, at: int, i: nat): int {
    if i < |path| then path[i] else at
  }

  predicate Rides(items: map<int, Item>, path: seq<int>, at: int, i: nat)
    requires i < |path|
  {
    path[i] in items && Above(items, path[i]) == Some(Stop(path, at, i + 1))
  }

  /** The way walked so far: each step rides under the next, no item twice. */
  predicate Way(items: map<int, Item>, path: seq<int>, at: int) {
    && at in items
    && (forall i :: 0 <= i < |path| ==> path[i] in items)
    && (forall i :: 0 <= i < |path| ==> Rides(items, path, at, i))
    && (forall i, j :: 0 <= i < j < |path| ==> path[i] != path[j])
  }

  lemma {:induction false} WayIsUp(items: map<int, Item>, path: seq<int>, at: int, i: nat, n: nat)
    requires Way(items, path, at) && i + n <= |path|
    ensures Stop(path, at, i) in items
    ensures Up(items, Stop(path, at, i), n) == Some(Stop(path, at, i + n))
    decreases n
  {
    if n > 0 {
      assert Rides(items, path, at, i);
      WayIsUp(items, path, at, i + 1, n - 1);
    }
  }

  /** The walk may stop at `at`: it rides under nothing, or has been walked before. */
  lemma {:induction false} WalkEndsAtRoot(items: map<int, Item>, path: seq<int>, at: int, first: int, n: nat)
    requires Way(items, path, at) && first == (if path == [] then at else path[0])
    requires n <= |path| && (if n == |path| then Above(items, at).None? else path[n] == at)
    ensures IsRoot(items, first, at)
  {
    WayIsUp(items, path, at, 0, n);
    if n < |path| {
      WayIsUp(items, path, at, n, |path| - n);
      assert OnCycle(items, at);
    }
    forall k: nat | k < n ensures Up(items, first, k).Some? && !Top(items, Up(items, first, k).value) {
      WayIsUp(items, path, at, 0, k);
      StepIsNoTop(items, path, at, n, k);
    }
    assert RootAt(items, first, at, n);
  }

  /** A step before the end of the way is no end itself: what lies above it never comes back to it. */
  lemma {:induction false} StepIsNoTop(items: map<int, Item>, path: seq<int>, at: int, n: nat, k: nat)
    requires Way(items, path, at) && k < n <= |path|
    requires if n == |path| then Above(items, at).None? else path[n] == at
    ensures !Top(items, path[k])
  {
    var rest := (set i | k + 1 <= i < |path| :: path[i]) + {at};
    forall x | x in rest && Above(items, x).Some? ensures Above(items, x).value in rest {
      if n < |path| || x != at {
        var i := if x == at then n else var i :| k + 1 <= i < |path| && path[i] == x; i;
        assert path[i] == x;
        assert Rides(items, path, at, i);
      }
    }
    assert Rides(items, path, at, k);
    assert path[k] != at;
    NotOnCycle(items, path[k], rest);
  }

  lemma {:induction false} ExtendWay(items: map<int, Item>, path: seq<int>, at: int)
    requires Way(items, path, at) && at !in path && Above(items, at).Some?
    ensures Way(items, path + [at], Above(items, at).value)
  {
    var longer := path + [at];
    forall i | 0 <= i < |longer|
      ensures Rides(items, longer, Above(items, at).value, i)
    {
      if i < |path| {
        assert longer[i] == path[i];
        assert Rides(items, path, at, i);
      } else {
        assert longer[i] == at && i + 1 == |longer|;
      }
    }
    forall i, j | 0 <= i < j < |longer| ensures longer[i] != longer[j] {
      assert longer[i] == path[i] && path[i] in path;
    }
  }

  /** `_root_id`. */
  method RootId(items: map<int, Item>, start: int) returns (root: int)
    requires ById(items) && start in items
    ensures root in items && IsRoot(items, start, root)
  {
    var item := items[start];
    var seen: set<int> := {};
    ghost var path: seq<int> := [];
    while true
      invariant item.id in items && items[item.id] == item
      invariant Way(items, path, item.id) && start == (if path == [] then item.id else path[0])
      invariant forall x :: x in seen <==> x in path
      decreases items.Keys - seen
    {
      if item.dependsOn.None? || item.dependsOn.value !in items || item.id in seen {
        ghost var n := |path|;
        if Above(items, item.id).Some? {
          n :| 0 <= n < |path| && path[n] == item.id;
        }
        WalkEndsAtRoot(items, path, item.id, start, n);
        return item.id;
      }
      var parent := items[item.dependsOn.value];
      if !item.followup && parent.runId != item.runId {
        WalkEndsAtRoot(items, path, item.id, start, |path|);
        return item.id;
      }
      assert parent.id == item.dependsOn.value && Above(items, item.id) == Some(parent.id);
      ExtendWay(items, path, item.id);
      seen := seen + {item.id};
      path := path + [item.id];
      item := parent;
    }
  }

  // ---- What the chains are made of

  /** The item stands alone: it depends on nothing that is listed, or is no follow-up and depends on an
      item of another run. */
  predicate Alone(items: map<int, Item>, id: int)
    requires id in items
  {
    var item := items[id];
    || item.dependsOn.None? || item.dependsOn.value !in items
    || (!item.followup && items[item.dependsOn.value].runId != item.runId)
  }

  /** An item that stands alone is its own root. */
  lemma {:induction false} AloneIsRoot(items: map<int, Item>, id: int)
    requires id in items && Alone(items, id)
    ensures IsRoot(items, id, id)
  {
    assert RootAt(items, id, id, 0);
  }

  /** Any other, unless it lies on a cycle, has the root of the item it depends on. */
  lemma {:induction false} RidesWithItsDependency(items: map<int, Item>, id: int, root: int)
    requires id in items && !Alone(items, id) && !OnCycle(items, id)
    ensures IsRoot(items, id, root) <==> IsRoot(items, items[id].dependsOn.value, root)
  {
    var above := items[id].dependsOn.value;
    assert Above(items, id) == Some(above);
    if IsRoot(items, id, root) {
      var n: nat :| RootAt(items, id, root, n);
      assert n > 0;
      forall k: nat | k < n - 1 ensures Up(items, above, k).Some? && !Top(items, Up(items, above, k).value) {
        assert Up(items, id, k + 1) == Up(items, above, k);
      }
      assert RootAt(items, above, root, n - 1);
    }
    if IsRoot(items, above, root) {
      var n: nat :| RootAt(items, above, root, n);
      forall k: nat | k < n + 1 ensures Up(items, id, k).Some? && !Top(items, Up(items, id, k).value) {
        if k > 0 {
          assert Up(items, id, k) == Up(items, above, k - 1);
        }
      }
      assert RootAt(items, id, root, n + 1);
    }
  }

  // ---- Collapsing

  /** The rows of the page, by id, and what rides under each. */
  datatype Page = Page(rows: seq<int>, followups: map<int, seq<int>>)

  ghost predicate Shown(items: map<int, Item>, id: int)
    requires id in items
  {
    IsRoot(items, id, id) && items[id].visible
  }

  /** The visible roots, in the order the items were read. */
  ghost function Rows(items: map<int, Item>, order: seq<int>): seq<int>
    requires forall id :: id in order ==> id in items
  {
    if order == [] then []
    else
      var n := |order| - 1;
      Rows(items, order[..n]) + if Shown(items, order[n]) then [order[n]] else []
  }

  predicate Distinct(ids: seq<int>) {
    forall i, j :: 0 <= i < j < |ids| ==> ids[i] != ids[j]
  }

  lemma {:induction false} RowsAreShown(items: map<int, Item>, order: seq<int>)
    requires (forall id :: id in order ==> id in items) && Distinct(order)
    ensures forall id :: id in Rows(items, order) <==> id in order && Shown(items, id)
    ensures Distinct(Rows(items, order))
  {
    if order != [] {
      var n := |order| - 1;
      assert order == order[..n] + [order[n]];
      RowsAreShown(items, order[..n]);
      var before := Rows(items, order[..n]);
      assert order[n] !in order[..n];
      assert forall i :: 0 <= i < |before| ==> before[i] in before;
    }
  }

  /** The rows stand in the order the items were read. */
  lemma {:induction false} RowsKeepTheOrder(items: map<int, Item>, order: seq<int>, a: nat, b: nat)
    requires (forall id :: id in order ==> id in items) && Distinct(order) && a < b < |order|
    requires order[a] in Rows(items, order) && order[b] in Rows(items, order)
    ensures exists i, j :: 0 <= i < j < |Rows(items, order)| && Rows(items, order)[i] == order[a]
                           && Rows(items, order)[j] == order[b]
  {
    var n := |order| - 1;
    var front := order[..n];
    var before := Rows(items, front);
    assert order == front + [order[n]];
    RowsAreShown(items, front);
    assert order[a] == front[a] && order[a] in before;
    if b < n {
      assert order[b] == front[b] && front[b] != order[n];
      RowsKeepTheOrder(items, front, a, b);
      var i, j :| 0 <= i < j < |before| && before[i] == front[a] && before[j] == front[b];
      assert Rows(items, order)[i] == order[a] && Rows(items, order)[j] == order[b];
    } else {
      var i :| 0 <= i < |before| && before[i] == order[a];
      assert order[n] !in before;
      assert Rows(items, order)[i] == order[a] && Rows(items, order)[|before|] == order[n];
    }
  }

  ghost predicate RidesUnder(items: map<int, Item>, rows: seq<int>, id: int, row: int) {
    id in items && id != row && row in rows && IsRoot(items, id, row)
  }

  predicate Ascending(ids: seq<int>) {
    forall i, j :: 0 <= i < j < |ids| ==> ids[i] < ids[j]
  }

  ghost predicate FiledUnder(items: map<int, Item>, rows: seq<int>, under: seq<int>, row: int, filed: seq<int>) {
    Ascending(under) && forall id :: id in under <==> id in filed && RidesUnder(items, rows, id, row)
  }

  /** Every row holds its followers by ascending id; nothing rides under an item that is no row. */
  ghost predicate Filed(items: map<int, Item>, rows: seq<int>, followups: map<int, seq<int>>, filed: seq<int>) {
    && followups.Keys == items.Keys
    && forall row :: row in items ==> FiledUnder(items, rows, followups[row], row, filed)
  }

  ghost predicate Collapsed(items: map<int, Item>, order: seq<int>, page: Page)
    requires forall id :: id in order ==> id in items
  {
    page.rows == Rows(items, order) && Filed(items, page.rows, page.followups, order)
  }

  datatype Place = AsRow(at: nat) | Under(row: int, at: nat)

  /** The id stands at a place of the page; what rides under an item that is no row is not seen. */
  predicate StandsAt(page: Page, id: int, place: Place) {
    match place
    case AsRow(at) => at < |page.rows| && page.rows[at] == id
    case Under(row, at) =>
      row in page.rows && row in page.followups && at < |page.followups[row]| && page.followups[row][at] == id
  }

  ghost predicate StandsOnce(page: Page, id: int) {
    exists place :: StandsAt(page, id, place) && forall other :: StandsAt(page, id, other) ==> other == place
  }

  ghost predicate StandsNowhere(page: Page, id: int) {
    forall place :: !StandsAt(page, id, place)
  }

  ghost predicate ShownByRoot(items: map<int, Item>, page: Page, id: int)
    requires id in items
  {
    exists root ::
      && root in items && IsRoot(items, id, root)
      && (items[root].visible ==> StandsOnce(page, id))
      && (!items[root].visible ==> StandsNowhere(page, id))
  }

  /** Collapsing loses nothing and doubles nothing: an item is on the page exactly once when its
      root is visible, and nowhere otherwise. */
  lemma {:induction false} OncePerVisibleRoot(items: map<int, Item>, order: seq<int>, page: Page, id: int, root: int)
    requires (forall x :: x in order <==> x in items) && Distinct(order) && Collapsed(items, order, page)
    requires id in items && IsRoot(items, id, root)
    ensures root in items
    ensures items[root].visible ==> StandsOnce(page, id)
    ensures !items[root].visible ==> StandsNowhere(page, id)
  {
    RootOfRoot(items, id, root);
    RowsAreShown(items, order);
    forall place | StandsAt(page, id, place)
      ensures root in page.rows && (id == root <==> place.AsRow?) && (place.Under? ==> place.row == root)
    {
      match place
      case AsRow(at) =>
        assert id in page.rows;
        RootIsUnique(items, id, id, root);
      case Under(row, at) =>
        assert id in page.followups[row] && RidesUnder(items, page.rows, id, row);
        RootIsUnique(items, id, row, root);
    }
    if items[root].visible {
      assert Shown(items, root) && root in page.rows;
      var place: Place;
      if id == root {
        var at :| 0 <= at < |page.rows| && page.rows[at] == id;
        place := AsRow(at);
      } else {
        assert RidesUnder(items, page.rows, id, root);
        var at :| 0 <= at < |page.followups[root]| && page.followups[root][at] == id;
        place := Under(root, at);
      }
      assert StandsAt(page, id, place);
      forall other | StandsAt(page, id, other) ensures other == place {
      }
    }
  }

  method Roots(items: map<int, Item>, order: seq<int>) returns (roots: map<int, int>)
    requires ById(items) && (forall id :: id in order <==> id in items)
    ensures roots.Keys == items.Keys
    ensures forall id :: id in items ==> IsRoot(items, id, roots[id])
  {
    roots := map[];
    for n := 0 to |order|
      invariant forall id :: id in roots <==> id in order[..n]
      invariant forall id :: id in roots ==> id in items && IsRoot(items, id, roots[id])
    {
      var root := RootId(items, order[n]);
      roots := roots[order[n] := root];
    }
    assert order[..|order|] == order;
    assert forall id :: id in roots <==> id in items;
  }

  method VisibleRoots(items: map<int, Item>, order: seq<int>, roots: map<int, int>) returns (rows: seq<int>)
    requires (forall id :: id in order <==> id in items) && roots.Keys == items.Keys
    requires forall id :: id in items ==> IsRoot(items, id, roots[id])
    ensures rows == Rows(items, order)
  {
    rows := [];
    for n := 0 to |order|
      invariant rows == Rows(items, order[..n])
    {
      var id := order[n];
      assert order[..n + 1][..n] == order[..n] && order[..n + 1][n] == id;
      if IsRoot(items, id, id) {
        RootIsUnique(items, id, id, roots[id]);
      }
      if roots[id] == id && items[id].visible {
        rows := rows + [id];
      }
    }
    assert order[..|order|] == order;
  }

  lemma {:induction false} FileUnder(items: map<int, Item>, rows: seq<int>, under: seq<int>, row: int,
          filed: seq<int>, id: int)
    requires FiledUnder(items, rows, under, row, filed) && forall x :: x in filed ==> x < id
    ensures RidesUnder(items, rows, id, row) ==> FiledUnder(items, rows, under + [id], row, filed + [id])
    ensures !RidesUnder(items, rows, id, row) ==> FiledUnder(items, rows, under, row, filed + [id])
  {
    assert forall x :: x in under + [id] <==> x in under || x == id;
    assert forall i :: 0 <= i < |under| ==> under[i] in under;
  }

  /** One turn of the loop that appends the follow-ups. */
  function FileOne(rows: seq<int>, followups: map<int, seq<int>>, id: int, root: int): map<int, seq<int>>
    requires root in followups
  {
    if root != id && root in rows then followups[root := followups[root] + [id]] else followups
  }

  lemma {:induction false} FileOneFiles(items: map<int, Item>, rows: seq<int>, followups: map<int, seq<int>>,
          filed: seq<int>, id: int, root: int)
    requires Filed(items, rows, followups, filed) && id in items && forall x :: x in filed ==> x < id
    requires IsRoot(items, id, root) && root in items
    ensures Filed(items, rows, FileOne(rows, followups, id, root), filed + [id])
  {
    forall row | row in items
      ensures FiledUnder(items, rows, FileOne(rows, followups, id, root)[row], row, filed + [id])
    {
      FileUnder(items, rows, followups[row], row, filed, id);
      if IsRoot(items, id, row) {
        RootIsUnique(items, id, row, root);
      }
    }
  }

  lemma {:induction false} SameFiled(items: map<int, Item>, rows: seq<int>, followups: map<int, seq<int>>,
          a: seq<int>, b: seq<int>)
    requires Filed(items, rows, followups, a) && forall x :: x in a <==> x in b
    ensures Filed(items, rows, followups, b)
  {
    forall row | row in items ensures FiledUnder(items, rows, followups[row], row, b) {
      assert FiledUnder(items, rows, followups[row], row, a);
    }
  }

  lemma {:induction false} NoneFiled(items: map<int, Item>, rows: seq<int>, followups: map<int, seq<int>>)
    requires followups.Keys == items.Keys && forall id :: id in items ==> followups[id] == []
    ensures Filed(items, rows, followups, [])
  {
  }

  lemma {:induction false} PrefixBelow(ids: seq<int>, n: nat)
    requires Ascending(ids) && n < |ids|
    ensures ids[..n + 1] == ids[..n] + [ids[n]]
    ensures forall x :: x in ids[..n] ==> x < ids[n]
  {
  }

  lemma {:induction false} FileNext(items: map<int, Item>, rows: seq<int>, followups: map<int, seq<int>>,
          ids: seq<int>, n: nat, root: int)
    requires Ascending(ids) && n < |ids| && ids[n] in items && IsRoot(items, ids[n], root)
    requires Filed(items, rows, followups, ids[..n])
    ensures root in followups && Filed(items, rows, FileOne(rows, followups, ids[n], root), ids[..n + 1])
  {
    PrefixBelow(ids, n);
    RootOfRoot(items, ids[n], root);
    FileOneFiles(items, rows, followups, ids[..n], ids[n], root);
  }

  method FileFollowups(items: map<int, Item>, order: seq<int>, rows: seq<int>, roots: map<int, int>)
    returns (followups: map<int, seq<int>>)
    requires roots.Keys == items.Keys && (forall id :: id in items ==> IsRoot(items, id, roots[id]))
    requires (forall x :: x in order <==> x in items) && (forall x :: x in rows ==> x in items)
    ensures Filed(items, rows, followups, order)
  {
    followups := map id | id in items :: [];
    var ids := SortedIds(items.Keys);
    assert Ascending(ids);
    assert forall n :: 0 <= n < |ids| ==> ids[n] in ids;
    NoneFiled(items, rows, followups);
    for n := 0 to |ids|
      invariant Filed(items, rows, followups, ids[..n])
    {
      var id := ids[n];
      var root := roots[id];
      FileNext(items, rows, followups, ids, n, root);
      if root != id && root in rows {
        followups := followups[root := followups[root] + [id]];
      }
    }
    assert ids[..|ids|] == ids;
    SameFiled(items, rows, followups, ids, order);
  }

  /** `top_level` and the follow-ups under its rows. Every item has a root, and the page shows it
      once or not at all as its root is visible or not. */
  method CollapseRuns(items: map<int, Item>, order: seq<int>) returns (page: Page)
    requires ById(items) && (forall id :: id in order <==> id in items) && Distinct(order)
    ensures Collapsed(items, order, page)
    ensures forall id :: id in items ==> ShownByRoot(items, page, id)
  {
    var roots := Roots(items, order);
    var rows := VisibleRoots(items, order, roots);
    RowsAreShown(items, order);
    var followups := FileFollowups(items, order, rows, roots);
    page := Page(rows, followups);
    forall id | id in items ensures ShownByRoot(items, page, id) {
      OncePerVisibleRoot(items, order, page, id, roots[id]);
    }
  }
}
