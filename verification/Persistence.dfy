// The stored tables, the upsert rules that write them, and the decoding that reads them.

module Persistence {
  import opened Prelude
  import opened Algebra
  import opened LedgerTypes
  import opened LedgerState
  import opened LedgerOps
  import opened LedgerInvariant
  import opened LedgerRows
  import opened LedgerObject
  import opened LedgerBuild

  datatype LeaseKind = UntilColumn | ParentColumn | UnboundedColumn
  datatype StateColumn = ActiveColumn | RetiringColumn | RetiredColumn

  // The columns of one holdings row.
  datatype HoldingRow = HoldingRow(
    subject: Name, classId: Name, instance: Name, frag: Frag, generation: Name, parent: Option<nat>,
    expiresAt: Option<Timestamp>, acquiredAt: Timestamp, releasedAt: Option<Timestamp>,
    leaseKind: LeaseKind, state: StateColumn, target: CleanupTarget)

  datatype Tables = Tables(
    classes: map<Name, ClassDecl>,
    pools: map<ResourceKey, Frag>,
    instantiations: map<Name, Name>,
    holdings: map<nat, HoldingRow>,
    cleanups: map<nat, CleanupRecord>)

  function EncodeRow(h: Holding): HoldingRow {
    HoldingRow(h.subject, h.classId, h.instance, h.frag, h.generation, h.parent,
               if h.lease.Until? then Some(h.lease.deadline) else None,
               h.acquiredAt,
               if h.state.Retired? then Some(h.state.at) else None,
               match h.lease {
                 case Until(_) => UntilColumn
                 case ParentBound => ParentColumn
                 case Unbounded => UnboundedColumn
               },
               match h.state {
                 case Active => ActiveColumn
                 case Retiring(_) => RetiringColumn
                 case Retired(_) => RetiredColumn
               },
               h.target)
  }

  function EncodeRows(hs: Rows): map<nat, HoldingRow> {
    map id | id in hs :: EncodeRow(hs[id])
  }

  // Whole-state overwrite: what the tables should hold.
  function Encode(s: State): Tables {
    Tables(s.classes, s.pools, s.instantiations, EncodeRows(s.holdings), s.cleanups)
  }

  // ----- upserts -----

  // An existing row keeps its class, instance, fragment, generation, parent and acquisition time.
  function UpsertRow(rows: map<nat, HoldingRow>, h: Holding): map<nat, HoldingRow> {
    var written := EncodeRow(h);
    if h.id in rows then
      rows[h.id := rows[h.id].(subject := written.subject, expiresAt := written.expiresAt,
        releasedAt := written.releasedAt,
                               leaseKind := written.leaseKind, state := written.state, target := written.target)]
    else rows[h.id := written]
  }

  // An existing class is never rewritten.
  function UpsertClass(classes: map<Name, ClassDecl>, d: ClassDecl): map<Name, ClassDecl> {
    if d.classId in classes then classes else classes[d.classId := d]
  }

  function UpsertRows(rows: map<nat, HoldingRow>, items: seq<Holding>): map<nat, HoldingRow> {
    if items == [] then rows else UpsertRow(UpsertRows(rows, items[..|items| - 1]), items[|items| - 1])
  }

  function UpsertClasses(classes: map<Name, ClassDecl>, items: seq<ClassDecl>): map<Name, ClassDecl> {
    if items == [] then classes else UpsertClass(UpsertClasses(classes, items[..|items| - 1]), items[|items| - 1])
  }

  function UpsertPools(pools: map<ResourceKey, Frag>, items: seq<PoolRecord>): map<ResourceKey, Frag> {
    if items == [] then pools
    else UpsertPools(pools, items[..|items| - 1])[items[|items| - 1].key := items[|items| - 1].capacity]
  }

  function UpsertInstantiations(m: map<Name, Name>, items: seq<(Name, Name)>): map<Name, Name> {
    if items == [] then m
    else UpsertInstantiations(m, items[..|items| - 1])[items[|items| - 1].0 := items[|items| - 1].1]
  }

  function UpsertCleanups(m: map<nat, CleanupRecord>, items: seq<CleanupRecord>): map<nat, CleanupRecord> {
    if items == [] then m
    else UpsertCleanups(m, items[..|items| - 1])[items[|items| - 1].holding.id := items[|items| - 1]]
  }

  // A stored class is never rewritten.
  lemma {:induction false} ClassesKept(classes: map<Name, ClassDecl>, items: seq<ClassDecl>)
    ensures forall c :: c in classes ==>
              c in UpsertClasses(classes, items) && UpsertClasses(classes, items)[c] == classes[c]
  {
    if items != [] {
      ClassesKept(classes, items[..|items| - 1]);
    }
  }

  predicate ListsClass(items: seq<ClassDecl>, c: Name) {
    exists i :: 0 <= i < |items| && items[i].classId == c
  }

  lemma ListsClassSnoc(items: seq<ClassDecl>, c: Name)
    requires items != []
    ensures ListsClass(items, c) <==> ListsClass(items[..|items| - 1], c) || items[|items| - 1].classId == c
  {
    var front := items[..|items| - 1];
    if ListsClass(front, c) {
      var i :| 0 <= i < |front| && front[i].classId == c;
      assert items[i].classId == c;
    }
    if ListsClass(items, c) {
      var i :| 0 <= i < |items| && items[i].classId == c;
      assert i < |front| ==> front[i].classId == c;
    }
  }

  // A class that is not stored yet is stored as it is first listed.
  lemma {:induction false} ClassesAdded(classes: map<Name, ClassDecl>, items: seq<ClassDecl>, c: Name)
    requires c !in classes
    ensures c in UpsertClasses(classes, items) <==> ListsClass(items, c)
    ensures ListsClass(items, c) ==>
              exists i :: 0 <= i < |items| && items[i].classId == c && !ListsClass(items[..i], c) &&
                          UpsertClasses(classes, items)[c] == items[i]
  {
    if items != [] {
      var n := |items| - 1;
      ClassesAdded(classes, items[..n], c);
      ListsClassSnoc(items, c);
      if ListsClass(items[..n], c) {
        var i :| 0 <= i < n && items[..n][i].classId == c && !ListsClass(items[..n][..i], c) &&
                 UpsertClasses(classes, items[..n])[c] == items[..n][i];
        assert items[..n][..i] == items[..i];
        assert UpsertClasses(classes, items)[c] == items[i];
      } else if items[n].classId == c {
        assert UpsertClasses(classes, items)[c] == items[n];
      }
    }
  }

  function Upserted(t: Tables, snap: Snapshot): Tables {
    Tables(UpsertClasses(t.classes, snap.classes),
           UpsertPools(t.pools, snap.pools),
           UpsertInstantiations(t.instantiations, snap.instantiations),
           UpsertRows(t.holdings, snap.holdings),
           UpsertCleanups(t.cleanups, snap.cleanups))
  }

  class Database {
    var tables: Tables
    var revision: nat

    constructor ()
      ensures tables == Tables(map[], map[], map[], map[], map[]) && revision == 0
    {
      tables := Tables(map[], map[], map[], map[], map[]);
      revision := 0;
    }

    // One statement per snapshot item, table by table.
    method Persist(snap: Snapshot)
      modifies this`tables
      ensures tables == Upserted(old(tables), snap)
    {
      ghost var t := tables;
      for k := 0 to |snap.classes|
        invariant tables == t.(classes := UpsertClasses(t.classes, snap.classes[..k]))
      {
        assert snap.classes[..k + 1][..k] == snap.classes[..k];
        tables := tables.(classes := UpsertClass(tables.classes, snap.classes[k]));
      }
      assert snap.classes[..|snap.classes|] == snap.classes;
      ghost var t1 := tables;
      for k := 0 to |snap.pools|
        invariant tables == t1.(pools := UpsertPools(t1.pools, snap.pools[..k]))
      {
        assert snap.pools[..k + 1][..k] == snap.pools[..k];
        tables := tables.(pools := tables.pools[snap.pools[k].key := snap.pools[k].capacity]);
      }
      assert snap.pools[..|snap.pools|] == snap.pools;
      PersistRest(snap);
    }

    method PersistRest(snap: Snapshot)
      modifies this`tables
      ensures tables == old(tables).(
                instantiations := UpsertInstantiations(old(tables).instantiations, snap.instantiations),
                holdings := UpsertRows(old(tables).holdings, snap.holdings),
                cleanups := UpsertCleanups(old(tables).cleanups, snap.cleanups))
    {
      ghost var t := tables;
      for k := 0 to |snap.instantiations|
        invariant tables == t.(instantiations := UpsertInstantiations(t.instantiations, snap.instantiations[..k]))
      {
        assert snap.instantiations[..k + 1][..k] == snap.instantiations[..k];
        var item := snap.instantiations[k];
        tables := tables.(instantiations := tables.instantiations[item.0 := item.1]);
      }
      assert snap.instantiations[..|snap.instantiations|] == snap.instantiations;
      ghost var t1 := tables;
      for k := 0 to |snap.holdings|
        invariant tables == t1.(holdings := UpsertRows(t1.holdings, snap.holdings[..k]))
      {
        assert snap.holdings[..k + 1][..k] == snap.holdings[..k];
        tables := tables.(holdings := UpsertRow(tables.holdings, snap.holdings[k]));
      }
      assert snap.holdings[..|snap.holdings|] == snap.holdings;
      ghost var t2 := tables;
      for k := 0 to |snap.cleanups|
        invariant tables == t2.(cleanups := UpsertCleanups(t2.cleanups, snap.cleanups[..k]))
      {
        assert snap.cleanups[..k + 1][..k] == snap.cleanups[..k];
        tables := tables.(cleanups := tables.cleanups[snap.cleanups[k].holding.id := snap.cleanups[k]]);
      }
      assert snap.cleanups[..|snap.cleanups|] == snap.cleanups;
    }
  }

  // ----- partial upserts refine whole-state overwrite -----

  // A rewritten row equals the new encoding because the untouched columns never change.
  lemma UpsertRowRefines(hs: Rows, h: Holding)
    requires h.id in hs ==> hs[h.id].SameIdentity(h)
    ensures UpsertRow(EncodeRows(hs), h) == EncodeRows(hs[h.id := h])
  {
  }

  // Rows both sides know agree on everything an upsert leaves alone.
  ghost predicate Rewritable(stored: Rows, hs: Rows) {
    forall id {:trigger hs[id]} :: id in stored && id in hs ==> stored[id].SameIdentity(hs[id])
  }

  lemma RewritableFront(stored: Rows, hs: Rows, h: Holding)
    requires h.id !in hs && Rewritable(stored, hs[h.id := h])
    ensures Rewritable(stored, hs)
    ensures h.id in stored + hs ==> (stored + hs)[h.id].SameIdentity(h)
  {
    forall id | id in stored && id in hs
      ensures stored[id].SameIdentity(hs[id])
    {
      assert hs[h.id := h][id] == hs[id];
    }
    assert hs[h.id := h][h.id] == h;
  }

  lemma {:induction false} UpsertRowsRefines(stored: Rows, items: seq<Holding>)
    requires UniqueIds(items) && Rewritable(stored, RowsOf(items))
    ensures UpsertRows(EncodeRows(stored), items) == EncodeRows(stored + RowsOf(items))
    decreases |items|
  {
    hide EncodeRows, UpsertRow, UniqueIds, Rewritable, RowsOf;
    RowsSplit(items);
    if items == [] {
      assert stored + RowsOf(items) == stored;
    } else {
      var front, h := items[..|items| - 1], items[|items| - 1];
      RewritableFront(stored, RowsOf(front), h);
      UpsertRowsRefines(stored, front);
      var m := stored + RowsOf(front);
      UpsertRowRefines(m, h);
      assert m[h.id := h] == stored + RowsOf(items);
    }
  }

  lemma FreshClassesFront(items: seq<ClassDecl>)
    requires FreshClasses(items) && items != []
    ensures FreshClasses(items[..|items| - 1]) && items[|items| - 1].classId !in ByClass(items[..|items| - 1])
  {
    var front := items[..|items| - 1];
    forall i | 0 <= i < |front|
      ensures front[i].Registrable() && front[i].classId !in ByClass(front[..i])
    {
      assert front[..i] == items[..i] && front[i] == items[i];
    }
  }

  lemma {:induction false} UpsertClassesRefines(stored: map<Name, ClassDecl>, items: seq<ClassDecl>)
    requires forall c :: c in ByClass(items) && c in stored ==> ByClass(items)[c] == stored[c]
    requires FreshClasses(items)
    ensures UpsertClasses(stored, items) == stored + ByClass(items)
    decreases |items|
  {
    hide FreshClasses;
    if items != [] {
      var front, d := items[..|items| - 1], items[|items| - 1];
      FreshClassesFront(items);
      assert forall c :: c in ByClass(front) ==> c in ByClass(items) && ByClass(items)[c] == ByClass(front)[c];
      UpsertClassesRefines(stored, front);
    }
  }

  lemma {:induction false} UpsertMapsRefine(t: Tables, pools: seq<PoolRecord>, pairs: seq<(Name, Name)>,
                                            tasks: seq<CleanupRecord>)
    requires forall i :: 0 <= i < |tasks| ==> tasks[i].holding.id == tasks[i].id
    ensures UpsertPools(t.pools, pools) == t.pools + ByPool(pools)
    ensures UpsertInstantiations(t.instantiations, pairs) == t.instantiations + ByChild(pairs)
    ensures UpsertCleanups(t.cleanups, tasks) == t.cleanups + ByTask(tasks)
    decreases |pools| + |pairs| + |tasks|
  {
    if pools != [] {
      UpsertMapsRefine(t, pools[..|pools| - 1], pairs, tasks);
    } else if pairs != [] {
      UpsertMapsRefine(t, pools, pairs[..|pairs| - 1], tasks);
    } else if tasks != [] {
      UpsertMapsRefine(t, pools, pairs, tasks[..|tasks| - 1]);
    } else {
      assert t.pools + ByPool(pools) == t.pools;
      assert t.instantiations + ByChild(pairs) == t.instantiations;
      assert t.cleanups + ByTask(tasks) == t.cleanups;
    }
  }

  // Along any run of ledger operations, the partial upserts leave exactly the tables a
  // whole-state overwrite would write.
  lemma PersistRefinesOverwrite(s: State, t: State, snap: Snapshot)
    requires Valid(t) && Evolves(s, t)
    requires Acceptable(snap) && StateOf(snap) == t
    ensures Upserted(Encode(s), snap) == Encode(t)
  {
    hide LedgerState.Invariant, Numbered, UniqueIds, FreshClasses, FreshPools, FreshChildren, FreshTasks, EncodeRows;
    TasksFiledByHolding(t, snap);
    EvolvesOverwrites(s, t);
    UpsertRowsRefines(s.holdings, snap.holdings);
    UpsertClassesRefines(s.classes, snap.classes);
    UpsertMapsRefine(Encode(s), snap.pools, snap.instantiations, snap.cleanups);
  }

  lemma EvolvesOverwrites(s: State, t: State)
    requires Evolves(s, t)
    ensures Rewritable(s.holdings, t.holdings)
    ensures s.holdings + t.holdings == t.holdings && s.classes + t.classes == t.classes
    ensures s.pools + t.pools == t.pools && s.instantiations + t.instantiations == t.instantiations
    ensures s.cleanups + t.cleanups == t.cleanups
  {
    forall id | id in s.holdings && id in t.holdings
      ensures s.holdings[id].SameIdentity(t.holdings[id])
    {
      assert RowEvolves(s.holdings[id], t.holdings[id]);
    }
  }

  lemma {:induction false} ListedTask(items: seq<CleanupRecord>, i: nat)
    requires FreshTasks(items) && i < |items|
    ensures items[i].id in ByTask(items) && ByTask(items)[items[i].id] == items[i]
    decreases |items|
  {
    var n := |items| - 1;
    var front := items[..n];
    forall k | 0 <= k < |front|
      ensures front[..k] == items[..k] && front[k] == items[k]
    {
    }
    if i < n {
      ListedTask(front, i);
      assert items[n].id !in ByTask(front);
    }
  }

  lemma TasksFiledByHolding(t: State, snap: Snapshot)
    requires Valid(t) && Acceptable(snap) && StateOf(snap) == t
    ensures forall i :: 0 <= i < |snap.cleanups| ==> snap.cleanups[i].holding.id == snap.cleanups[i].id
  {
    forall i | 0 <= i < |snap.cleanups|
      ensures snap.cleanups[i].holding.id == snap.cleanups[i].id
    {
      ListedTask(snap.cleanups, i);
      assert TaskOk(t, snap.cleanups[i].id);
    }
  }

  // The columns an upsert does not rewrite.
  predicate SameFixedColumns(a: Holding, b: Holding) {
    && a.classId == b.classId && a.instance == b.instance && a.frag == b.frag
    && a.generation == b.generation && a.parent == b.parent && a.acquiredAt == b.acquiredAt
  }

  // An upsert over a stored row is an overwrite exactly when the fixed columns agree:
  // immutability along runs is what the partial write relies on.
  lemma UpsertExact(stored: Rows, h: Holding)
    requires h.id in stored
    ensures UpsertRow(EncodeRows(stored), h) == EncodeRows(stored[h.id := h]) <==> SameFixedColumns(stored[h.id], h)
  {
    var a, b := UpsertRow(EncodeRows(stored), h), EncodeRows(stored[h.id := h]);
    assert a.Keys == b.Keys;
    assert forall id :: id in a && id != h.id ==> a[id] == b[id];
    if SameFixedColumns(stored[h.id], h) {
      assert a[h.id] == b[h.id];
    } else {
      assert a[h.id] != b[h.id];
    }
  }

  // ----- decoding -----

  function DecodeLease(r: HoldingRow): Option<Lease> {
    match (r.leaseKind, r.expiresAt)
    case (UntilColumn, Some(t)) => Some(Until(t))
    case (ParentColumn, None) => if r.parent.Some? then Some(ParentBound) else None
    case (UnboundedColumn, None) => Some(Unbounded)
    case _ => None
  }

  function DecodeState(id: nat, r: HoldingRow): Option<HoldingState> {
    match (r.state, r.releasedAt)
    case (ActiveColumn, None) => Some(Active)
    case (RetiringColumn, None) => Some(Retiring(id))
    case (RetiredColumn, Some(t)) => Some(Retired(t))
    case _ => None
  }

  // None is a corrupt row.
  function DecodeRow(id: nat, r: HoldingRow): Option<Holding> {
    var lease, state := DecodeLease(r), DecodeState(id, r);
    if lease.None? || state.None? then None
    else
      Some(Holding(id, r.subject, r.classId, r.instance, r.frag, r.generation, r.parent,
                   lease.value, r.acquiredAt, state.value, r.target))
  }

  lemma DecodeEncodeRow(s: State, id: nat)
    requires RowsOk(s) && RetirementsOk(s) && TasksOk(s) && id in s.holdings
    ensures DecodeRow(id, EncodeRow(s.holdings[id])) == Some(s.holdings[id])
  {
    var h := s.holdings[id];
    assert RowOk(s, id) && RetirementOk(s, id);
    if h.state.Retiring? {
      assert TaskOk(s, h.state.task);
    }
  }

  predicate Decodable(t: Tables) {
    && (forall id :: id in t.holdings ==> DecodeRow(id, t.holdings[id]).Some?)
    && (forall id :: id in t.cleanups ==> t.cleanups[id].holding.id == id)
  }

  function DecodedRows(t: Tables): Rows
    requires Decodable(t)
  {
    map id | id in t.holdings :: DecodeRow(id, t.holdings[id]).value
  }

  lemma EncodedDecodable(s: State)
    requires Valid(s)
    ensures Decodable(Encode(s)) && DecodedRows(Encode(s)) == s.holdings
  {
    forall id | id in s.holdings
      ensures DecodeRow(id, EncodeRow(s.holdings[id])) == Some(s.holdings[id])
    {
      DecodeEncodeRow(s, id);
    }
    forall id | id in s.cleanups
      ensures s.cleanups[id].holding.id == id
    {
      assert TaskOk(s, id);
    }
  }

  // Two valid ledgers with the same stored tables are the same ledger.
  lemma EncodeInjective(a: State, b: State)
    requires Valid(a) && Valid(b) && Encode(a) == Encode(b)
    ensures a == b
  {
    EncodedDecodable(a);
    EncodedDecodable(b);
    assert a.nextId == b.nextId;
  }
}
