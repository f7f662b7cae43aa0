// Fixpoint and worklist computations over the parent forest, and pool settlement.

module LedgerClosures {
  import opened Prelude
  import opened Algebra
  import opened LedgerTypes
  import opened LedgerState
  import opened LedgerRows
  import opened LedgerObject
  import opened LedgerCleanup
  import Ops = LedgerOps
  import Inv = LedgerInvariant
  import Ret = Retirement

  // ----- due holdings -----

  // Active rows of `ids`, as handles in vector order.
  function ActiveRefs(vec: seq<Holding>, ids: set<nat>): seq<Handle> {
    if vec == [] then []
    else
      var rest := ActiveRefs(vec[..|vec| - 1], ids);
      var h := vec[|vec| - 1];
      if h.state.Active? && h.id in ids then rest + [h.Ref()] else rest
  }

  predicate RefersTo(vec: seq<Holding>, ids: set<nat>, r: Handle) {
    exists j :: 0 <= j < |vec| && vec[j].state.Active? && vec[j].id in ids && vec[j].Ref() == r
  }

  lemma {:induction false} ActiveRefsExact(vec: seq<Holding>, ids: set<nat>, r: Handle)
    ensures r in ActiveRefs(vec, ids) <==> RefersTo(vec, ids, r)
  {
    if vec != [] {
      var n := |vec| - 1;
      var front, h := vec[..n], vec[n];
      ActiveRefsExact(front, ids, r);
      if RefersTo(front, ids, r) {
        var j :| 0 <= j < n && front[j].state.Active? && front[j].id in ids && front[j].Ref() == r;
        assert vec[j] == front[j];
      }
      if RefersTo(vec, ids, r) {
        var j :| 0 <= j < |vec| && vec[j].state.Active? && vec[j].id in ids && vec[j].Ref() == r;
        assert j < n ==> vec[j] == front[j];
      }
    }
  }

  // Rows the next round adds: active, parent-bound, with a due parent.
  function Inheritors(hs: Rows, due: set<nat>): set<nat> {
    set id | id in hs && Ops.BoundChild(hs, id) && hs[id].parent.value in due
  }

  ghost predicate DueSoFar(hs: Rows, now: Timestamp, due: set<nat>) {
    && due <= hs.Keys
    && (forall id {:trigger id in due} :: id in due ==> Ret.Due(hs, now, id))
    && (forall id {:trigger Ret.DueNow(hs[id], now)} :: id in hs && Ret.DueNow(hs[id], now) ==> id in due)
  }

  lemma DueSeeds(hs: Rows, now: Timestamp)
    ensures DueSoFar(hs, now, set id | id in hs && Ret.DueNow(hs[id], now))
  {
    forall id | id in hs && Ret.DueNow(hs[id], now)
      ensures Ret.Due(hs, now, id)
    {
      Ret.DueStep(hs, now, id);
    }
  }

  lemma DueRound(hs: Rows, now: Timestamp, due: set<nat>)
    requires DueSoFar(hs, now, due)
    ensures DueSoFar(hs, now, due + Inheritors(hs, due))
    ensures |due| <= |due + Inheritors(hs, due)| <= |hs.Keys|
    ensures |due + Inheritors(hs, due)| == |due| ==> Ret.ClosedUnderBound(hs, due + Inheritors(hs, due))
  {
    var more := due + Inheritors(hs, due);
    forall id | id in Inheritors(hs, due)
      ensures Ret.Due(hs, now, id)
    {
      Ret.DueStep(hs, now, id);
    }
    SubsetSize(due, more);
    SubsetSize(more, hs.Keys);
  }

  lemma DueFixpoint(vec: seq<Holding>, now: Timestamp, due: set<nat>)
    requires UniqueIds(vec) && DueSoFar(RowsOf(vec), now, due) && Ret.ClosedUnderBound(RowsOf(vec), due)
    ensures ActiveRefs(vec, due) == ActiveRefs(vec, Ret.DueActive(RowsOf(vec), now))
  {
    Ret.DueLeast(RowsOf(vec), now, due);
    ActiveRefsSame(vec, due, Ret.DueActive(RowsOf(vec), now));
  }

  method CollectActive(vec: seq<Holding>, ids: set<nat>) returns (handles: seq<Handle>)
    ensures handles == ActiveRefs(vec, ids)
  {
    handles := [];
    for k := 0 to |vec|
      invariant handles == ActiveRefs(vec[..k], ids)
    {
      assert vec[..k + 1][..k] == vec[..k];
      if vec[k].state.Active? && vec[k].id in ids {
        handles := handles + [vec[k].Ref()];
      }
    }
    assert vec[..|vec|] == vec;
  }

  // The loop computes the least fixpoint and returns its active rows.
  method DueRetirements(l: Ledger, now: Timestamp) returns (handles: seq<Handle>)
    requires UniqueIds(l.holdings)
    ensures handles == ActiveRefs(l.holdings, Ret.DueActive(RowsOf(l.holdings), now))
  {
    hide DueSoFar, Inheritors, UniqueIds, Ret.ClosedUnderBound;
    var hs := RowsOf(l.holdings);
    var due := set id | id in hs && Ret.DueNow(hs[id], now);
    DueSeeds(hs, now);
    SubsetSize(due, hs.Keys);
    var grew := true;
    while grew
      invariant DueSoFar(hs, now, due) && |due| <= |hs.Keys|
      invariant !grew ==> Ret.ClosedUnderBound(hs, due)
      decreases |hs.Keys| - |due|, grew
    {
      var more := due + Inheritors(hs, due);
      DueRound(hs, now, due);
      grew := |more| != |due|;
      due := more;
    }
    DueFixpoint(l.holdings, now, due);
    handles := CollectActive(l.holdings, due);
  }

  lemma SubsetSize(a: set<nat>, b: set<nat>)
    requires a <= b
    ensures |a| <= |b|
    ensures |a| == |b| ==> a == b
  {
    assert b == a + (b - a);
    assert |b| == |a| + |b - a|;
    assert |b - a| == 0 ==> b - a == {};
  }

  lemma {:induction false} ActiveRefsSame(vec: seq<Holding>, a: set<nat>, b: set<nat>)
    requires forall j :: 0 <= j < |vec| && vec[j].state.Active? ==> (vec[j].id in a <==> vec[j].id in b)
    ensures ActiveRefs(vec, a) == ActiveRefs(vec, b)
  {
    if vec != [] {
      ActiveRefsSame(vec[..|vec| - 1], a, b);
    }
  }

  // ----- descendant closures -----

  // Active closures see active rows; occupying closures see every row not retired.
  predicate Visible(hs: Rows, onlyActive: bool, id: nat) {
    id in hs && (if onlyActive then hs[id].state.Active? else hs[id].state.Occupies())
  }

  ghost predicate ClosedUnderChildren(hs: Rows, onlyActive: bool, ids: set<nat>) {
    forall c {:trigger Visible(hs, onlyActive, c)} ::
      Visible(hs, onlyActive, c) && hs[c].parent.Some? && hs[c].parent.value in ids ==> c in ids
  }

  function Elements(items: seq<nat>): (r: set<nat>)
    ensures forall i :: 0 <= i < |items| ==> items[i] in r
    ensures forall x :: x in r ==> x in items
  {
    set x | x in items
  }

  // `ids` is the least set with the seeds that is closed under visible children.
  ghost predicate LeastClosure(hs: Rows, onlyActive: bool, seeds: set<nat>, ids: set<nat>) {
    && seeds <= ids
    && ClosedUnderChildren(hs, onlyActive, ids)
    && forall s: set<nat> {:trigger ClosedUnderChildren(hs, onlyActive, s)} ::
         seeds <= s && ClosedUnderChildren(hs, onlyActive, s) ==> ids <= s
  }

  // Children of one row that are not listed yet, in vector order.
  method NewChildren(l: Ledger, onlyActive: bool, parent: nat, items: seq<nat>) returns (kids: seq<nat>)
    requires UniqueIds(l.holdings) && Distinct(items)
    ensures var hs := RowsOf(l.holdings);
            && Distinct(items + kids)
            && (forall k {:trigger kids[k]} :: 0 <= k < |kids| ==>
                 Visible(hs, onlyActive, kids[k]) && hs[kids[k]].parent == Some(parent))
            && (forall c {:trigger Visible(hs, onlyActive, c)} ::
                  Visible(hs, onlyActive, c) && hs[c].parent == Some(parent) ==> c in items || c in kids)
  {
    kids := [];
    ghost var hs := RowsOf(l.holdings);
    for k := 0 to |l.holdings|
      invariant Distinct(items + kids)
      invariant forall i {:trigger kids[i]} :: 0 <= i < |kids| ==>
                  && Visible(hs, onlyActive, kids[i]) && hs[kids[i]].parent == Some(parent)
                  && IdBefore(l.holdings, k, kids[i])
      invariant forall j {:trigger l.holdings[j]} ::
                  0 <= j < k && Visible(hs, onlyActive, l.holdings[j].id) && l.holdings[j].parent == Some(parent) ==>
                  l.holdings[j].id in items || l.holdings[j].id in kids
    {
      var h := l.holdings[k];
      assert hs[h.id] == h;
      var seen := if onlyActive then h.state.Active? else h.state.Occupies();
      if seen && h.parent == Some(parent) && h.id !in items {
        IdNotBefore(l.holdings, k);
        DistinctSnoc(items + kids, h.id);
        assert items + (kids + [h.id]) == (items + kids) + [h.id];
        kids := kids + [h.id];
      }
    }
  }

  lemma DistinctSnoc(s: seq<nat>, x: nat)
    requires Distinct(s) && x !in s
    ensures Distinct(s + [x])
  {
  }

  ghost predicate ClosureSoFar(hs: Rows, onlyActive: bool, seeds: seq<nat>, items: seq<nat>, done: nat) {
    && done <= |items| && Distinct(items)
    && Elements(seeds) <= Elements(items) <= hs.Keys
    && (forall c {:trigger Visible(hs, onlyActive, c)} ::
          Visible(hs, onlyActive, c) && hs[c].parent.Some? && hs[c].parent.value in items[..done] ==> c in items)
    && forall s: set<nat> {:trigger ClosedUnderChildren(hs, onlyActive, s)} ::
         Elements(seeds) <= s && ClosedUnderChildren(hs, onlyActive, s) ==> Elements(items) <= s
  }

  lemma ClosureStep(hs: Rows, onlyActive: bool, seeds: seq<nat>, items: seq<nat>, done: nat, kids: seq<nat>)
    requires ClosureSoFar(hs, onlyActive, seeds, items, done) && done < |items| && Distinct(items + kids)
    requires forall k {:trigger kids[k]} :: 0 <= k < |kids| ==>
               Visible(hs, onlyActive, kids[k]) && hs[kids[k]].parent == Some(items[done])
    requires forall c {:trigger Visible(hs, onlyActive, c)} ::
               Visible(hs, onlyActive, c) && hs[c].parent == Some(items[done]) ==> c in items || c in kids
    ensures ClosureSoFar(hs, onlyActive, seeds, items + kids, done + 1)
  {
    var all := items + kids;
    assert all[..done + 1] == items[..done] + [items[done]];
    forall s: set<nat> | Elements(seeds) <= s && ClosedUnderChildren(hs, onlyActive, s)
      ensures Elements(all) <= s
    {
      assert items[done] in Elements(items);
      forall x | x in Elements(all)
        ensures x in s
      {
        if x in kids {
          assert Visible(hs, onlyActive, x);
        } else {
          assert x in Elements(items);
        }
      }
    }
  }

  lemma ClosureDone(hs: Rows, onlyActive: bool, seeds: seq<nat>, items: seq<nat>)
    requires ClosureSoFar(hs, onlyActive, seeds, items, |items|)
    ensures LeastClosure(hs, onlyActive, Elements(seeds), Elements(items))
  {
    assert items[..|items|] == items;
  }

  method Descendants(l: Ledger, onlyActive: bool, seeds: seq<nat>) returns (items: seq<nat>)
    requires UniqueIds(l.holdings) && Distinct(seeds) && Elements(seeds) <= RowsOf(l.holdings).Keys
    ensures Distinct(items)
    ensures LeastClosure(RowsOf(l.holdings), onlyActive, Elements(seeds), Elements(items))
  {
    hide LeastClosure;
    ghost var hs := RowsOf(l.holdings);
    items := seeds;
    assert items[..0] == [];
    var i := 0;
    while i < |items|
      invariant ClosureSoFar(hs, onlyActive, seeds, items, i)
      decreases |hs.Keys| - i
    {
      ItemsBounded(hs, items);
      var kids := NewChildren(l, onlyActive, items[i], items);
      ClosureStep(hs, onlyActive, seeds, items, i, kids);
      items := items + kids;
      i := i + 1;
    }
    ClosureDone(hs, onlyActive, seeds, items);
  }

  lemma ItemsBounded(hs: Rows, items: seq<nat>)
    requires Distinct(items) && Elements(items) <= hs.Keys
    ensures |items| <= |hs.Keys|
  {
    forall i | 0 <= i < |items|
      ensures items[i] in hs.Keys
    {
      assert items[i] in Elements(items);
    }
    DistinctBounded(items, hs.Keys);
  }

  // ----- settling a counted pool -----

  method Depth(l: Ledger, id: nat) returns (depth: nat)
    requires l.Valid() && id in l.View().holdings
    ensures AtDepth(l.View().holdings, id, depth)
  {
    ghost var hs := l.View().holdings;
    assert Rooted(hs, id);
    ghost var n: nat :| RootedIn(hs, id, n);
    depth := 0;
    var i := l.IndexOf(id);
    var h := l.holdings[i.value];
    ghost var at := id;
    while h.parent.Some?
      invariant at in hs && h == hs[at] && RootedIn(hs, at, n)
      invariant forall e: nat {:trigger AtDepth(hs, at, e)} :: AtDepth(hs, at, e) ==> AtDepth(hs, id, depth + e)
      decreases n
    {
      ghost var below := at;
      at, n := h.parent.value, n - 1;
      depth := depth + 1;
      forall e: nat | AtDepth(hs, at, e)
        ensures AtDepth(hs, id, depth + e)
      {
        assert AtDepth(hs, below, e + 1);
      }
      i := l.IndexOf(h.parent.value);
      h := l.holdings[i.value];
    }
    assert AtDepth(hs, at, 0);
  }

  datatype DepthRow = DepthRow(depth: nat, handle: Handle)

  predicate Deepest(rows: seq<DepthRow>) {
    forall i, j :: 0 <= i < j < |rows| ==> rows[i].depth >= rows[j].depth
  }

  // Stable insertion sort, deepest first.
  function InsertByDepth(x: DepthRow, rows: seq<DepthRow>): seq<DepthRow> {
    if rows == [] || x.depth >= rows[0].depth then [x] + rows
    else [rows[0]] + InsertByDepth(x, rows[1..])
  }

  function SortByDepth(rows: seq<DepthRow>): seq<DepthRow> {
    if rows == [] then [] else InsertByDepth(rows[0], SortByDepth(rows[1..]))
  }

  lemma {:induction false} InsertByDepthFacts(x: DepthRow, rows: seq<DepthRow>)
    ensures multiset(InsertByDepth(x, rows)) == multiset(rows) + multiset{x}
  {
    if rows == [] || x.depth >= rows[0].depth {
    } else {
      InsertByDepthFacts(x, rows[1..]);
      assert rows == [rows[0]] + rows[1..];
    }
  }

  lemma {:induction false} InsertKeepsDeepest(x: DepthRow, rows: seq<DepthRow>)
    requires Deepest(rows)
    ensures Deepest(InsertByDepth(x, rows))
  {
    if rows == [] || x.depth >= rows[0].depth {
    } else {
      InsertKeepsDeepest(x, rows[1..]);
      var r := InsertByDepth(x, rows[1..]);
      InsertByDepthFacts(x, rows[1..]);
      forall k | 0 <= k < |r|
        ensures rows[0].depth >= r[k].depth
      {
        assert r[k] in multiset(rows[1..]) + multiset{x};
        assert r[k] == x || r[k] in rows[1..];
      }
    }
  }

  lemma {:induction false} SortByDepthFacts(rows: seq<DepthRow>)
    ensures multiset(SortByDepth(rows)) == multiset(rows)
    ensures Deepest(SortByDepth(rows))
  {
    if rows != [] {
      SortByDepthFacts(rows[1..]);
      InsertByDepthFacts(rows[0], SortByDepth(rows[1..]));
      InsertKeepsDeepest(rows[0], SortByDepth(rows[1..]));
      assert rows == [rows[0]] + rows[1..];
    }
  }

  function Charged(hs: Rows, key: ResourceKey): set<nat> {
    set id | id in hs && Charges(hs[id], key)
  }

  function PartSettled(hs: Rows, done: set<nat>, now: Timestamp): Rows {
    map id | id in hs :: if id in done then hs[id].(state := Retired(now)) else hs[id]
  }

  // Row `id` may be settled on its own terms.
  predicate RowSettleable(hs: Rows, key: ResourceKey, id: nat)
    requires id in hs
  {
    && hs[id].state.Active? && hs[id].target.AccountingOnly?
    && forall c :: c in hs && ChildOf(hs, c, id) && Occupying(hs, c) ==> Charges(hs[c], key)
  }

  // Why a row may not be settled.
  function StuckReason(hs: Rows, id: nat): LedgerError
    requires id in hs
  {
    if hs[id].state.Active? && hs[id].target.AccountingOnly? then TeardownOrder else CleanupRequired
  }

  // The reported refusal is that of a charged row such that every deeper one may be settled.
  ghost predicate DeepestStuck(hs: Rows, key: ResourceKey, id: nat, e: LedgerError) {
    && id in Charged(hs, key) && !RowSettleable(hs, key, id) && e == StuckReason(hs, id)
    && forall c, d: nat, n: nat {:trigger AtDepth(hs, c, d), AtDepth(hs, id, n)} ::
         c in Charged(hs, key) && AtDepth(hs, c, d) && AtDepth(hs, id, n) && d > n ==> RowSettleable(hs, key, c)
  }

  lemma SettleableByRow(s: State, key: ResourceKey)
    ensures Ops.Settleable(s, key) <==>
              forall id :: id in Charged(s.holdings, key) ==> RowSettleable(s.holdings, key, id)
  {
    var hs := s.holdings;
    if forall id :: id in Charged(hs, key) ==> RowSettleable(hs, key, id) {
      forall id | id in hs && Charges(hs[id], key)
        ensures hs[id].state.Active? && hs[id].target.AccountingOnly?
        ensures forall c :: c in hs && ChildOf(hs, c, id) && Occupying(hs, c) ==> Charges(hs[c], key)
      {
        assert id in Charged(hs, key);
      }
    }
  }

  // Deeper charged rows are settled already, so the release of `id` is decided by
  // whether `id` itself may be settled.
  lemma SettleStep(s: State, key: ResourceKey, now: Timestamp, done: set<nat>, id: nat, d: nat)
    requires LedgerState.Valid(s) && done <= Charged(s.holdings, key) && id in Charged(s.holdings, key) && id !in done
    requires AtDepth(s.holdings, id, d)
    requires forall c, e: nat {:trigger AtDepth(s.holdings, c, e)} ::
               c in Charged(s.holdings, key) && AtDepth(s.holdings, c, e) && e > d ==> c in done
    ensures var t := s.(holdings := PartSettled(s.holdings, done, now));
            var step := Ops.Release(t, s.holdings[id].Ref(), now);
            && (step.result.Ok? <==> RowSettleable(s.holdings, key, id))
            && (step.result.Ok? ==> step.state == s.(holdings := PartSettled(s.holdings, done + {id}, now)))
            && (step.result.Err? ==> step.result.error == StuckReason(s.holdings, id))
  {
    var hs := s.holdings;
    var ks := PartSettled(hs, done, now);
    assert RowOk(s, id);
    assert ks[id] == hs[id];
    assert HasOccupyingChild(ks, id) <==> exists c :: c in hs && ChildOf(hs, c, id) && Occupying(hs, c) && c !in done
             by {
      forall c | c in hs
        ensures (ChildOf(ks, c, id) && Occupying(ks, c)) <==> (ChildOf(hs, c, id) && Occupying(hs, c) && c !in done)
      {
      }
    }
    forall c | c in hs && ChildOf(hs, c, id) && Occupying(hs, c)
      ensures Charges(hs[c], key) <==> c in done
    {
      assert AtDepth(hs, c, d + 1);
      assert c in Charged(hs, key) <==> Charges(hs[c], key);
    }
    assert PartSettled(hs, done + {id}, now) == ks[id := hs[id].(state := Retired(now))];
  }

  lemma {:induction false} InsertKeepsDistinct(x: DepthRow, rows: seq<DepthRow>)
    requires Distinct(rows) && x !in rows
    ensures Distinct(InsertByDepth(x, rows))
  {
    if rows == [] || x.depth >= rows[0].depth {
    } else {
      InsertKeepsDistinct(x, rows[1..]);
      InsertByDepthFacts(x, rows[1..]);
      var r := InsertByDepth(x, rows[1..]);
      forall k | 0 <= k < |r|
        ensures r[k] != rows[0]
      {
        assert r[k] in multiset(r);
        assert r[k] == x || r[k] in rows[1..];
      }
    }
  }

  lemma {:induction false} SortKeepsDistinct(rows: seq<DepthRow>)
    requires Distinct(rows)
    ensures Distinct(SortByDepth(rows))
  {
    if rows != [] {
      SortKeepsDistinct(rows[1..]);
      SortByDepthFacts(rows[1..]);
      assert rows[0] !in rows[1..];
      assert rows[0] !in multiset(SortByDepth(rows[1..]));
      InsertKeepsDistinct(rows[0], SortByDepth(rows[1..]));
    }
  }

  // ----- the charged rows with their depths -----

  predicate DepthRowOk(hs: Rows, key: ResourceKey, r: DepthRow) {
    && r.handle.id in Charged(hs, key)
    && r.handle == hs[r.handle.id].Ref()
    && AtDepth(hs, r.handle.id, r.depth)
  }

  ghost predicate Listed(rows: seq<DepthRow>, id: nat) {
    exists k :: 0 <= k < |rows| && rows[k].handle.id == id
  }

  ghost predicate RowsListed(hs: Rows, key: ResourceKey, rows: seq<DepthRow>) {
    && Distinct(rows)
    && (forall k {:trigger rows[k]} :: 0 <= k < |rows| ==> DepthRowOk(hs, key, rows[k]))
    && (forall id {:trigger Listed(rows, id)} :: id in Charged(hs, key) ==> Listed(rows, id))
  }

  lemma SortedStaysListed(hs: Rows, key: ResourceKey, rows: seq<DepthRow>)
    requires RowsListed(hs, key, rows)
    ensures RowsListed(hs, key, SortByDepth(rows)) && Deepest(SortByDepth(rows))
  {
    var r := SortByDepth(rows);
    SortByDepthFacts(rows);
    SortKeepsDistinct(rows);
    forall k | 0 <= k < |r|
      ensures DepthRowOk(hs, key, r[k])
    {
      assert r[k] in multiset(rows);
    }
    forall id | id in Charged(hs, key)
      ensures Listed(r, id)
    {
      assert Listed(rows, id);
      var k :| 0 <= k < |rows| && rows[k].handle.id == id;
      assert rows[k] in multiset(r);
    }
  }

  method ChargedRows(l: Ledger, key: ResourceKey) returns (rows: seq<DepthRow>)
    requires l.Valid()
    ensures RowsListed(l.View().holdings, key, rows)
  {
    hide LedgerState.Valid;
    ghost var hs := l.View().holdings;
    var vec := l.holdings;
    rows := [];
    for k := 0 to |vec|
      invariant Distinct(rows)
      invariant forall i {:trigger rows[i]} :: 0 <= i < |rows| ==>
                  DepthRowOk(hs, key, rows[i]) && IdBefore(vec, k, rows[i].handle.id)
      invariant forall j {:trigger vec[j]} :: 0 <= j < k && Charges(vec[j], key) ==> Listed(rows, vec[j].id)
    {
      var h := vec[k];
      if Charges(h, key) {
        var d := Depth(l, h.id);
        assert hs[h.id] == h;
        var row := DepthRow(d, h.Ref());
        IdNotBefore(vec, k);
        assert Distinct(rows + [row]);
        ghost var before := rows;
        rows := rows + [row];
        assert rows[|before|].handle.id == h.id;
        forall j | 0 <= j < k + 1 && Charges(vec[j], key)
          ensures Listed(rows, vec[j].id)
        {
          if j < k {
            assert Listed(before, vec[j].id);
            var m :| 0 <= m < |before| && before[m].handle.id == vec[j].id;
            assert rows[m] == before[m];
          }
        }
      }
    }
    forall id | id in Charged(hs, key)
      ensures Listed(rows, id)
    {
      var j :| 0 <= j < |vec| && vec[j].id == id;
      assert hs[id] == vec[j];
    }
  }

  // ----- releasing deepest first -----

  function DoneIds(rows: seq<DepthRow>, n: nat): (r: set<nat>)
    requires n <= |rows|
  {
    set k | 0 <= k < n :: rows[k].handle.id
  }

  lemma SettleStepAt(s: State, key: ResourceKey, now: Timestamp, rows: seq<DepthRow>, n: nat)
    requires LedgerState.Valid(s) && RowsListed(s.holdings, key, rows) && Deepest(rows) && n < |rows|
    ensures var t := s.(holdings := PartSettled(s.holdings, DoneIds(rows, n), now));
            var id := rows[n].handle.id;
            var step := Ops.Release(t, rows[n].handle, now);
            && id in Charged(s.holdings, key)
            && (step.result.Ok? <==> RowSettleable(s.holdings, key, id))
            && (step.result.Ok? ==> step.state == s.(holdings := PartSettled(s.holdings, DoneIds(rows, n + 1), now)))
            && (step.result.Err? ==> step.result.error == StuckReason(s.holdings, id))
  {
    var hs := s.holdings;
    var done, id := DoneIds(rows, n), rows[n].handle.id;
    assert DepthRowOk(hs, key, rows[n]);
    forall k | 0 <= k < n
      ensures rows[k].handle.id in Charged(hs, key) && rows[k].handle.id != id
    {
      assert DepthRowOk(hs, key, rows[k]);
      assert rows[k] != rows[n];
      if rows[k].handle.id == id {
        DepthUnique(hs, id, rows[k].depth, rows[n].depth);
      }
    }
    forall c, e: nat {:trigger AtDepth(hs, c, e)} | c in Charged(hs, key) && AtDepth(hs, c, e) && e > rows[n].depth
      ensures c in done
    {
      assert Listed(rows, c);
      var k :| 0 <= k < |rows| && rows[k].handle.id == c;
      assert DepthRowOk(hs, key, rows[k]);
      DepthUnique(hs, c, e, rows[k].depth);
      assert k < n;
    }
    SettleStep(s, key, now, done, id, rows[n].depth);
    assert DoneIds(rows, n + 1) == done + {id};
  }

  lemma SettleFinished(s: State, key: ResourceKey, now: Timestamp, rows: seq<DepthRow>)
    requires RowsListed(s.holdings, key, rows)
    requires forall k :: 0 <= k < |rows| ==>
               rows[k].handle.id in s.holdings && RowSettleable(s.holdings, key, rows[k].handle.id)
    ensures Ops.Settleable(s, key)
    ensures PartSettled(s.holdings, DoneIds(rows, |rows|), now) == Ops.SettledRows(s.holdings, key, now)
  {
    forall id | id in Charged(s.holdings, key)
      ensures id in DoneIds(rows, |rows|) && RowSettleable(s.holdings, key, id)
    {
      assert Listed(rows, id);
    }
    forall k | 0 <= k < |rows|
      ensures rows[k].handle.id in Charged(s.holdings, key)
    {
      assert DepthRowOk(s.holdings, key, rows[k]);
    }
    SettleableByRow(s, key);
  }

  lemma NothingSettledYet(s: State, rows: seq<DepthRow>, now: Timestamp)
    ensures s.(holdings := PartSettled(s.holdings, DoneIds(rows, 0), now)) == s
  {
    assert PartSettled(s.holdings, DoneIds(rows, 0), now) == s.holdings;
  }

  lemma FirstStuck(s: State, key: ResourceKey, rows: seq<DepthRow>, n: nat)
    requires RowsListed(s.holdings, key, rows) && Deepest(rows) && n < |rows|
    requires rows[n].handle.id in s.holdings && !RowSettleable(s.holdings, key, rows[n].handle.id)
    requires forall k :: 0 <= k < n ==>
               rows[k].handle.id in s.holdings && RowSettleable(s.holdings, key, rows[k].handle.id)
    ensures DeepestStuck(s.holdings, key, rows[n].handle.id, StuckReason(s.holdings, rows[n].handle.id))
  {
    hide RowSettleable;
    var hs, id := s.holdings, rows[n].handle.id;
    assert DepthRowOk(hs, key, rows[n]);
    forall c, d: nat, m: nat | c in Charged(hs, key) && AtDepth(hs, c, d) && AtDepth(hs, id, m) && d > m
      ensures RowSettleable(hs, key, c)
    {
      assert Listed(rows, c);
      var k :| 0 <= k < |rows| && rows[k].handle.id == c;
      assert DepthRowOk(hs, key, rows[k]);
      DepthUnique(hs, c, d, rows[k].depth);
      DepthUnique(hs, id, m, rows[n].depth);
    }
  }

  // Release every row in order; stop at the first refusal.
  method ReleaseRows(staged: Ledger, key: ResourceKey, rows: seq<DepthRow>, now: Timestamp) returns (r: Answer<()>)
    requires staged.Valid() && RowsListed(staged.View().holdings, key, rows) && Deepest(rows)
    modifies staged
    ensures staged.Valid() && staged.identity == old(staged.identity)
    ensures r.Ok? <==> Ops.Settleable(old(staged.View()), key)
    ensures var s := old(staged.View());
              r.Ok? ==> staged.View() == s.(holdings := Ops.SettledRows(s.holdings, key, now))
    ensures r.Err? ==> exists id :: DeepestStuck(old(staged.View()).holdings, key, id, r.error)
  {
    hide LedgerState.Valid, RowsListed, Deepest, PartSettled, RowSettleable, Ops.Settleable, Ops.Release, DeepestStuck;
    ghost var s := staged.View();
    NothingSettledYet(s, rows, now);
    for n := 0 to |rows|
      invariant staged.Valid() && staged.identity == old(staged.identity)
      invariant staged.View() == s.(holdings := PartSettled(s.holdings, DoneIds(rows, n), now))
      invariant forall k :: 0 <= k < n ==>
                  rows[k].handle.id in s.holdings && RowSettleable(s.holdings, key, rows[k].handle.id)
    {
      SettleStepAt(s, key, now, rows, n);
      var step := staged.Release(rows[n].handle, now);
      if step.Err? {
        SettleableByRow(s, key);
        FirstStuck(s, key, rows, n);
        return Err(step.error);
      }
    }
    SettleFinished(s, key, now, rows);
    return Ok(());
  }

  // Work on a staged copy and publish it only when every row was released.
  method SettleAndZeroPool(l: Ledger, pool: PoolRef, now: Timestamp, stagedIdentity: nat) returns (r: Answer<()>)
    requires l.Valid() && pool.tag == Counted
    modifies l
    ensures l.Valid() && l.identity == old(l.identity)
    ensures pool.ledger != l.identity ==> r == Err(ForeignReference) && l.View() == old(l.View())
    ensures pool.ledger == l.identity ==>
              var step := Ops.SettlePool(old(l.View()), pool.key, now);
              && l.View() == step.state
              && (r.Ok? <==> step.result.Ok?)
              && (Ops.CheckPool(old(l.View()), pool.key, Counted).Err? ==> r == step.result)
              && (Ops.CheckPool(old(l.View()), pool.key, Counted).Ok? && r.Err? ==>
                    exists id :: DeepestStuck(old(l.View()).holdings, pool.key, id, r.error))
  {
    hide LedgerState.Valid, RowsListed, Deepest, Ops.Settleable, Ops.SettledRows, DeepestStuck;
    var checked := l.CheckPool(pool);
    if checked.Err? {
      return Err(checked.error);
    }
    Inv.SettlePoolPreserves(l.View(), pool.key, now);
    var staged := new Ledger.Clone(l, stagedIdentity);
    var rows := ChargedRows(staged, pool.key);
    SortedStaysListed(staged.View().holdings, pool.key, rows);
    var released := ReleaseRows(staged, pool.key, SortByDepth(rows), now);
    if released.Err? {
      return Err(released.error);
    }
    l.classes := staged.classes;
    l.capacities := staged.capacities[pool.key := CountFrag(Value(0))];
    l.holdings := staged.holdings;
    l.nextId := staged.nextId;
    l.cleanups := staged.cleanups;
    l.instantiations := staged.instantiations;
    return Ok(());
  }
}
