// Opening a store: decode the stored tables, rebuild and check the ledger.

module LedgerOpen {
  import opened Prelude
  import opened LedgerTypes
  import opened LedgerState
  import opened LedgerInvariant
  import opened LedgerRows
  import opened LedgerObject
  import opened LedgerBuild
  import opened Persistence
  import opened StoreProtocol
  import opened LedgerStorage

  predicate Least(ids: set<nat>, m: nat) {
    m in ids && forall x :: x in ids ==> m <= x
  }

  lemma {:induction false} LeastElement(ids: set<nat>) returns (m: nat)
    requires ids != {}
    ensures Least(ids, m)
    decreases |ids|
  {
    var x :| x in ids;
    m := x;
    var rest := ids - {x};
    if rest != {} {
      var n := LeastElement(rest);
      if n < x {
        m := n;
      }
    }
    forall y | y in ids
      ensures m <= y
    {
      assert y == x || y in rest;
    }
  }

  // The rows outside `todo`, decoded, in id order.
  ghost predicate DecodedSoFar(rows: map<nat, HoldingRow>, todo: set<nat>, items: seq<Holding>) {
    && UniqueIds(items)
    && (forall id :: id in rows && id !in todo ==> DecodeRow(id, rows[id]).Some?)
    && RowsOf(items) == (map id | id in rows && id !in todo :: DecodeRow(id, rows[id]).value)
  }

  predicate InOrder(items: seq<Holding>, todo: set<nat>) {
    && (forall i, x :: 0 <= i < |items| && x in todo ==> items[i].id < x)
    && (forall i, j :: 0 <= i < j < |items| ==> items[i].id < items[j].id)
  }

  lemma InOrderNext(items: seq<Holding>, todo: set<nat>, h: Holding)
    requires InOrder(items, todo) && Least(todo, h.id)
    ensures InOrder(items + [h], todo - {h.id})
  {
    var all := items + [h];
    forall i, x | 0 <= i < |all| && x in todo - {h.id}
      ensures all[i].id < x
    {
      assert h.id <= x && x in todo;
      assert i < |items| ==> all[i] == items[i] && items[i].id < x;
    }
    forall i, j | 0 <= i < j < |all|
      ensures all[i].id < all[j].id
    {
      assert all[i] == items[i];
      assert j < |items| ==> all[j] == items[j];
    }
  }

  lemma DecodeBegins(rows: map<nat, HoldingRow>)
    ensures DecodedSoFar(rows, rows.Keys, [])
  {
  }

  lemma DecodeNext(rows: map<nat, HoldingRow>, todo: set<nat>, items: seq<Holding>, id: nat, h: Holding)
    requires DecodedSoFar(rows, todo, items) && todo <= rows.Keys && id in todo && DecodeRow(id, rows[id]) == Some(h)
    ensures h.id == id && DecodedSoFar(rows, todo - {id}, items + [h])
  {
    hide UniqueIds, RowsOf;
    assert h.id == id;
    RowsAppend(items, h);
    OneMoreDecoded(rows, todo, id, h);
  }

  lemma OneMoreDecoded(rows: map<nat, HoldingRow>, todo: set<nat>, id: nat, h: Holding)
    requires forall k :: k in rows && k !in todo ==> DecodeRow(k, rows[k]).Some?
    requires todo <= rows.Keys && id in todo && DecodeRow(id, rows[id]) == Some(h)
    ensures forall k :: k in rows && k !in todo - {id} ==> DecodeRow(k, rows[k]).Some?
    ensures (map k | k in rows && k !in todo - {id} :: DecodeRow(k, rows[k]).value) ==
            (map k | k in rows && k !in todo :: DecodeRow(k, rows[k]).value)[id := h]
  {
    hide DecodeRow;
  }

  lemma DecodeEnds(rows: map<nat, HoldingRow>, items: seq<Holding>)
    requires DecodedSoFar(rows, {}, items)
    ensures forall id :: id in rows ==> DecodeRow(id, rows[id]).Some?
    ensures UniqueIds(items) && RowsOf(items) == map id | id in rows :: DecodeRow(id, rows[id]).value
  {
    hide DecodeRow, UniqueIds, RowsOf;
  }

  // Rows in id order; the first corrupt row stops the decoding.
  method DecodeHoldings(rows: map<nat, HoldingRow>) returns (r: Option<seq<Holding>>)
    ensures r.Some? <==> forall id :: id in rows ==> DecodeRow(id, rows[id]).Some?
    ensures r.Some? ==> UniqueIds(r.value) && RowsOf(r.value) == map id | id in rows :: DecodeRow(id, rows[id]).value
    ensures r.Some? ==> forall i, j :: 0 <= i < j < |r.value| ==> r.value[i].id < r.value[j].id
  {
    hide DecodedSoFar, DecodeRow, UniqueIds, RowsOf;
    var items: seq<Holding> := [];
    var todo := rows.Keys;
    DecodeBegins(rows);
    while todo != {}
      invariant todo <= rows.Keys && DecodedSoFar(rows, todo, items) && InOrder(items, todo)
      decreases |todo|
    {
      ghost var m := LeastElement(todo);
      var id :| id in todo && Least(todo, id);
      var h := DecodeRow(id, rows[id]);
      if h.None? {
        return None;
      }
      DecodeNext(rows, todo, items, id, h.value);
      InOrderNext(items, todo, h.value);
      items := items + [h.value];
      todo := todo - {id};
    }
    DecodeEnds(rows, items);
    return Some(items);
  }

  // Each key column repeats the key of its row.
  predicate Keyed(t: Tables) {
    && (forall c :: c in t.classes ==> t.classes[c].classId == c)
    && (forall id :: id in t.cleanups ==> t.cleanups[id].id == id && t.cleanups[id].holding.id == id)
    && (forall id :: id in t.holdings ==> id <= I64_MAX)
  }

  lemma EncodedKeyed(s: State)
    requires Valid(s)
    ensures Keyed(Encode(s))
  {
    forall id | id in s.cleanups
      ensures s.cleanups[id].id == id && s.cleanups[id].holding.id == id
    {
      assert TaskOk(s, id);
    }
  }

  // What decoding leaves for the builder.
  ghost predicate DecodesTo(t: Tables, snap: Snapshot) {
    && Decodable(t)
    && ByClass(snap.classes) == t.classes && ByPool(snap.pools) == t.pools
    && ByChild(snap.instantiations) == t.instantiations && ByTask(snap.cleanups) == t.cleanups
    && UniqueIds(snap.holdings) && RowsOf(snap.holdings) == DecodedRows(t)
    && FreshPools(snap.pools) && FreshChildren(snap.instantiations) && FreshTasks(snap.cleanups)
    && ((forall c :: c in t.classes ==> t.classes[c].Registrable()) ==> FreshClasses(snap.classes))
  }

  method Decode(t: Tables) returns (r: Option<Snapshot>)
    requires Keyed(t)
    ensures r.Some? <==> Decodable(t)
    ensures r.Some? ==> DecodesTo(t, r.value)
  {
    hide DecodeRow, FreshClasses, FreshPools, FreshChildren, FreshTasks, ByClass, ByPool, ByChild, ByTask, UniqueIds;
    hide RowsOf;
    var classes := ListClasses(t.classes);
    var pools := ListPools(t.pools);
    var instantiations := ListInstantiations(t.instantiations);
    var holdings := DecodeHoldings(t.holdings);
    if holdings.None? {
      return None;
    }
    var cleanups := ListCleanups(t.cleanups);
    return Some(Snapshot(classes, pools, holdings.value, instantiations, cleanups));
  }

  lemma RowsBelow(s: State, items: seq<Holding>)
    requires Numbered(s) && UniqueIds(items) && RowsOf(items) == s.holdings
    ensures NextAfter(items) == s.nextId
    ensures forall i :: 0 <= i < |items| ==> items[i].id <= I64_MAX
  {
    NextAfterFacts(items);
    forall i | 0 <= i < |items|
      ensures items[i].id < s.nextId
    {
      assert items[i].id in s.holdings;
    }
    if s.nextId > 0 {
      var i :| 0 <= i < |items| && items[i].id == s.nextId - 1;
    }
  }

  // Decoding the tables of a valid ledger rebuilds that ledger.
  lemma DecodedState(s: State, snap: Snapshot)
    requires Valid(s) && DecodesTo(Encode(s), snap)
    ensures StateOf(snap) == s && Acceptable(snap)
    ensures forall i :: 0 <= i < |snap.holdings| ==> snap.holdings[i].id <= I64_MAX
  {
    EncodedDecodable(s);
    hide LedgerState.Invariant, FreshClasses, FreshPools, FreshChildren, FreshTasks, UniqueIds, Decodable;
    hide DecodedRows, EncodeRows, RowsOf, NextAfter;
    RowsBelow(s, snap.holdings);
  }

  lemma DecodedIds(t: Tables, snap: Snapshot)
    requires Keyed(t) && DecodesTo(t, snap)
    ensures UniqueIds(snap.holdings)
    ensures forall i :: 0 <= i < |snap.holdings| ==> snap.holdings[i].id <= I64_MAX
  {
    forall i | 0 <= i < |snap.holdings|
      ensures snap.holdings[i].id <= I64_MAX
    {
      assert snap.holdings[i].id in DecodedRows(t);
    }
  }

  // A store opens on what the tables decode to, and on the tables of any valid ledger it
  // opens with exactly that ledger: what a commit persisted is what the next open shows.
  method Open(db: Database, identity: nat) returns (r: Option<LedgerStore>)
    requires Keyed(db.tables)
    ensures r.Some? ==>
              && fresh(r.value) && r.value.db == db && r.value.ledger.Valid()
              && Opened(r.value.Stored(), r.value.Shown())
    ensures forall s :: Valid(s) && db.tables == Encode(s) ==>
              r.Some? && r.value.ledger.Valid() && r.value.ledger.View() == s && r.value.Valid()
  {
    hide LedgerState.Valid, DecodesTo, Acceptable, Encode, Decodable, Keyed;
    forall s | Valid(s) && db.tables == Encode(s)
      ensures Decodable(db.tables)
    {
      EncodedDecodable(s);
    }
    var snap := Decode(db.tables);
    if snap.None? {
      return None;
    }
    DecodedIds(db.tables, snap.value);
    forall s | Valid(s) && db.tables == Encode(s)
      ensures StateOf(snap.value) == s && Acceptable(snap.value)
    {
      DecodedState(s, snap.value);
    }
    var built := Build(snap.value, identity);
    if built.Err? {
      return None;
    }
    BuiltMatches(db.tables, snap.value, built.value);
    var store := new LedgerStore.Reopened(db, built.value);
    return Some(store);
  }

  lemma BuiltMatches(t: Tables, snap: Snapshot, l: Ledger)
    requires DecodesTo(t, snap) && l.Valid() && l.View() == StateOf(snap)
    ensures Decodable(t) && DecodedRows(t) == l.View().holdings
    ensures t.classes == l.View().classes && t.pools == l.View().pools
    ensures t.instantiations == l.View().instantiations && t.cleanups == l.View().cleanups
  {
    hide LedgerState.Valid, UniqueIds;
  }
}
