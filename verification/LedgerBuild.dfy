// The rest of the executable checker, and checked reconstruction from a snapshot.

module LedgerBuild {
  import opened Prelude
  import opened Algebra
  import opened Auth
  import opened LedgerTypes
  import opened LedgerState
  import opened LedgerRows
  import opened LedgerObject
  import opened LedgerCheck

  // ----- target conflicts -----

  ghost predicate ClashAt(vec: seq<Holding>, i: nat, j: nat) {
    i < j < |vec| && vec[i].state.Occupies() && vec[j].state.Occupies() && vec[i].target.ConflictsWith(vec[j].target)
  }

  lemma ClashesExact(vec: seq<Holding>)
    requires UniqueIds(vec)
    ensures NoTargetConflicts(RowsOf(vec)) <==> forall i: nat, j: nat :: !ClashAt(vec, i, j)
  {
    var hs := RowsOf(vec);
    if NoTargetConflicts(hs) {
      forall i: nat, j: nat
        ensures !ClashAt(vec, i, j)
      {
        if i < j < |vec| {
          assert !SameId(vec, i, j);
          assert !Clash(hs, vec[i].id, vec[j].id);
        }
      }
    }
    if forall i: nat, j: nat :: !ClashAt(vec, i, j) {
      forall a: nat, b: nat
        ensures !Clash(hs, a, b)
      {
        if a in hs && b in hs && a != b {
          var i :| 0 <= i < |vec| && vec[i].id == a;
          var j :| 0 <= j < |vec| && vec[j].id == b;
          ConflictSymmetric(hs[a].target, hs[b].target);
          assert !ClashAt(vec, i, j) && !ClashAt(vec, j, i);
        }
      }
    }
  }

  method CheckConflicts(l: Ledger) returns (ok: bool)
    requires UniqueIds(l.holdings)
    ensures ok <==> NoTargetConflicts(RowsOf(l.holdings))
  {
    ClashesExact(l.holdings);
    var vec := l.holdings;
    for i := 0 to |vec|
      invariant forall a: nat, b: nat :: a < i ==> !ClashAt(vec, a, b)
    {
      if vec[i].state.Occupies() {
        for j := i + 1 to |vec|
          invariant forall b: nat :: i < b < j ==> !ClashAt(vec, i, b)
        {
          if vec[j].state.Occupies() && vec[i].target.ConflictsWith(vec[j].target) {
            assert ClashAt(vec, i, j);
            return false;
          }
        }
      }
    }
    return true;
  }

  // ----- cleanup rows and tasks -----

  method CheckRetirements(l: Ledger) returns (ok: bool)
    requires UniqueIds(l.holdings) && RowsOk(l.View())
    ensures ok <==> RetirementsOk(l.View())
  {
    ghost var s := l.View();
    for k := 0 to |l.holdings|
      invariant forall j {:trigger l.holdings[j]} :: 0 <= j < k ==> RetirementOk(s, l.holdings[j].id)
    {
      var h := l.holdings[k];
      assert s.holdings[h.id] == h;
      assert RowOk(s, h.id);
      if h.target.Policy() != l.classes[h.classId].cleanup {
        assert !RetirementOk(s, h.id);
        return false;
      }
      var parentActive := l.ParentActive(h);
      if h.state.Active? && h.lease.ParentBound? && h.parent.Some? && !parentActive {
        assert !RetirementOk(s, h.id);
        return false;
      }
      if h.target.Unresolved? && h.state.Active? {
        assert !RetirementOk(s, h.id);
        return false;
      }
      if h.state.Retiring? {
        var id := h.state.task;
        if !(id in l.cleanups && l.cleanups[id].holding == h.Ref() && !l.cleanups[id].state.Done?) {
          assert !RetirementOk(s, h.id);
          return false;
        }
      }
      if h.state.Retired? && h.target.Policy().Managed? {
        if !(h.id in l.cleanups && l.cleanups[h.id].holding == h.Ref() && l.cleanups[h.id].state.Done?) {
          assert !RetirementOk(s, h.id);
          return false;
        }
      }
    }
    forall id | id in s.holdings
      ensures RetirementOk(s, id)
    {
      var j :| 0 <= j < |l.holdings| && l.holdings[j].id == id;
    }
    return true;
  }

  // Tasks are filed under their own id.
  predicate Filed(tasks: map<nat, CleanupRecord>) {
    forall id :: id in tasks ==> tasks[id].id == id
  }

  method CheckTask(l: Ledger, id: nat) returns (r: Answer<()>)
    requires UniqueIds(l.holdings) && id in l.cleanups && Filed(l.cleanups)
    ensures r.Ok? <==> TaskOk(l.View(), id)
  {
    var t := l.cleanups[id];
    var found := l.Resolve(t.holding);
    if found.Err? {
      return Err(found.error);
    }
    var h := l.holdings[found.value];
    if t.id != h.id || t.attempts > I64_MAX {
      return Err(InvalidCleanup);
    }
    var valid := match t.state {
      case Done(Confirmed) => t.attempts > 0 && h.state.Retired?
      case Done(AlreadyAbsent) => h.state.Retired?
      case Running(_) => t.attempts > 0 && h.state == Retiring(t.id)
      case _ => h.state == Retiring(t.id)
    };
    if !valid {
      return Err(InvalidCleanup);
    }
    return Ok(());
  }

  // `keys` are the keys of the tasks in `done`, each used once.
  ghost predicate KeysSeen(tasks: map<nat, CleanupRecord>, done: set<nat>, keys: set<string>) {
    && done <= tasks.Keys
    && (forall id :: id in done ==> tasks[id].key in keys)
    && (forall key :: key in keys ==> exists id :: id in done && tasks[id].key == key)
    && (forall a: nat, b: nat {:trigger SharedKey(tasks, a, b)} :: a in done && b in done ==> !SharedKey(tasks, a, b))
  }

  lemma KeyRepeats(tasks: map<nat, CleanupRecord>, done: set<nat>, keys: set<string>, id: nat)
    requires KeysSeen(tasks, done, keys) && id in tasks && id !in done && tasks[id].key in keys
    ensures !KeysUnique(tasks)
  {
    var other :| other in done && tasks[other].key == tasks[id].key;
    assert SharedKey(tasks, other, id);
  }

  lemma KeyAdded(tasks: map<nat, CleanupRecord>, done: set<nat>, keys: set<string>, id: nat)
    requires KeysSeen(tasks, done, keys) && id in tasks && tasks[id].key !in keys
    ensures KeysSeen(tasks, done + {id}, keys + {tasks[id].key})
  {
    forall key | key in keys + {tasks[id].key}
      ensures exists k :: k in done + {id} && tasks[k].key == key
    {
      if key in keys {
        var k :| k in done && tasks[k].key == key;
        assert k in done + {id};
      } else {
        assert id in done + {id};
      }
    }
  }

  lemma AllKeysSeen(tasks: map<nat, CleanupRecord>, keys: set<string>)
    requires KeysSeen(tasks, tasks.Keys - {}, keys)
    ensures KeysUnique(tasks)
  {
    forall a: nat, b: nat
      ensures !SharedKey(tasks, a, b)
    {
    }
  }

  method CheckTasks(l: Ledger) returns (r: Answer<()>)
    requires UniqueIds(l.holdings) && Filed(l.cleanups)
    ensures r.Ok? <==> TasksOk(l.View()) && KeysUnique(l.cleanups)
  {
    hide TaskOk, UniqueIds, Filed;
    ghost var s := l.View();
    var keys: set<string> := {};
    var todo := l.cleanups.Keys;
    while todo != {}
      invariant todo <= l.cleanups.Keys
      invariant KeysSeen(l.cleanups, l.cleanups.Keys - todo, keys)
      invariant forall id {:trigger TaskOk(s, id)} :: id in l.cleanups && id !in todo ==> TaskOk(s, id)
      decreases |todo|
    {
      var id :| id in todo;
      var checked := CheckTask(l, id);
      if checked.Err? {
        return Err(checked.error);
      }
      if l.cleanups[id].key in keys {
        KeyRepeats(l.cleanups, l.cleanups.Keys - todo, keys, id);
        return Err(InvalidCleanup);
      }
      KeyAdded(l.cleanups, l.cleanups.Keys - todo, keys, id);
      assert l.cleanups.Keys - (todo - {id}) == (l.cleanups.Keys - todo) + {id};
      keys := keys + {l.cleanups[id].key};
      todo := todo - {id};
    }
    AllKeysSeen(l.cleanups, keys);
    return Ok(());
  }

  method CheckCleanup(l: Ledger) returns (r: Answer<()>)
    requires UniqueIds(l.holdings) && RowsOk(l.View()) && Filed(l.cleanups)
    ensures r.Ok? <==>
              NoTargetConflicts(l.View().holdings) && RetirementsOk(l.View()) && TasksOk(l.View()) &&
              KeysUnique(l.cleanups)
  {
    var free := CheckConflicts(l);
    if !free {
      return Err(Conflict);
    }
    var rows := CheckRetirements(l);
    if !rows {
      return Err(InvalidCleanup);
    }
    r := CheckTasks(l);
  }

  // ----- pools -----

  method CheckOnePool(l: Ledger, key: ResourceKey) returns (r: Answer<()>)
    requires UniqueIds(l.holdings) && IdsBelow(RowsOf(l.holdings), l.nextId) && key in l.capacities
    ensures r.Ok? <==> PoolOk(l.View(), key)
  {
    if key.classId !in l.classes {
      return Err(UnknownClass);
    }
    var cap := l.capacities[key];
    if cap.Tag() != l.classes[key.classId].algebra {
      return Err(AlgebraMismatch);
    }
    if !cap.Valid() {
      return Err(InvalidValue);
    }
    var live := l.LiveFrags(key);
    FitsPermutation(cap, live, LedgerState.LiveFrags(l.View(), key));
    if !Uniform(cap.Tag(), live) {
      return Err(AlgebraMismatch);
    }
    if !Fits(cap, live) {
      return Err(Conflict);
    }
    return Ok(());
  }

  method CheckPools(l: Ledger) returns (r: Answer<()>)
    requires UniqueIds(l.holdings) && IdsBelow(RowsOf(l.holdings), l.nextId)
    ensures r.Ok? <==> PoolsOk(l.View())
  {
    hide PoolOk;
    ghost var s := l.View();
    var todo := l.capacities.Keys;
    while todo != {}
      invariant todo <= l.capacities.Keys
      invariant forall key {:trigger PoolOk(s, key)} :: key in l.capacities && key !in todo ==> PoolOk(s, key)
      decreases |todo|
    {
      var key :| key in todo;
      todo := todo - {key};
      var checked := CheckOnePool(l, key);
      if checked.Err? {
        return Err(checked.error);
      }
    }
    return Ok(());
  }

  // The executable checker decides the declarative invariant on any reconstructed data,
  // with repeated ids and cyclic or dangling parents included.
  method CheckInvariant(l: Ledger) returns (r: Answer<()>)
    requires forall i :: 0 <= i < |l.holdings| ==> l.holdings[i].id < l.nextId
    requires Filed(l.cleanups)
    ensures r.Ok? <==> UniqueIds(l.holdings) && LedgerState.Invariant(l.View())
  {
    hide RowsOk, Forest, RetirementsOk, TasksOk, PoolsOk, KeysUnique, NoTargetConflicts;
    var rows := CheckRows(l);
    if rows.Err? {
      return Err(rows.error);
    }
    var cleanup := CheckCleanup(l);
    if cleanup.Err? {
      return Err(cleanup.error);
    }
    r := CheckPools(l);
  }

  // ----- snapshots -----

  datatype PoolRecord = PoolRecord(key: ResourceKey, capacity: Frag)

  datatype Snapshot = Snapshot(
    classes: seq<ClassDecl>,
    pools: seq<PoolRecord>,
    holdings: seq<Holding>,
    instantiations: seq<(Name, Name)>,
    cleanups: seq<CleanupRecord>)

  // Filing a list under keys; a later entry replaces an earlier one.
  function ByClass(items: seq<ClassDecl>): map<Name, ClassDecl> {
    if items == [] then map[] else ByClass(items[..|items| - 1])[items[|items| - 1].classId := items[|items| - 1]]
  }
  function ByPool(items: seq<PoolRecord>): map<ResourceKey, Frag> {
    if items == [] then map[] else ByPool(items[..|items| - 1])[items[|items| - 1].key := items[|items| - 1].capacity]
  }
  function ByChild(items: seq<(Name, Name)>): map<Name, Name> {
    if items == [] then map[] else ByChild(items[..|items| - 1])[items[|items| - 1].0 := items[|items| - 1].1]
  }
  function ByTask(items: seq<CleanupRecord>): map<nat, CleanupRecord> {
    if items == [] then map[] else ByTask(items[..|items| - 1])[items[|items| - 1].id := items[|items| - 1]]
  }
  function NextAfter(items: seq<Holding>): nat {
    if items == [] then 0
    else
      var n := NextAfter(items[..|items| - 1]);
      var id := items[|items| - 1].id;
      if id + 1 > n then id + 1 else n
  }

  ghost function StateOf(snap: Snapshot): State
    requires UniqueIds(snap.holdings)
  {
    State(ByClass(snap.classes), ByPool(snap.pools), RowsOf(snap.holdings), NextAfter(snap.holdings),
          ByTask(snap.cleanups), ByChild(snap.instantiations))
  }

  // Reconstruction accepts exactly lists without repeated keys, registrable classes,
  // and a graph that satisfies the invariant.
  ghost predicate FreshClasses(items: seq<ClassDecl>) {
    forall i {:trigger items[i]} :: 0 <= i < |items| ==>
      items[i].Registrable() && items[i].classId !in ByClass(items[..i])
  }

  ghost predicate FreshPools(items: seq<PoolRecord>) {
    forall i {:trigger items[i]} :: 0 <= i < |items| ==> items[i].key !in ByPool(items[..i])
  }

  ghost predicate FreshChildren(items: seq<(Name, Name)>) {
    forall i {:trigger items[i]} :: 0 <= i < |items| ==> items[i].0 !in ByChild(items[..i])
  }

  ghost predicate FreshTasks(items: seq<CleanupRecord>) {
    forall i {:trigger items[i]} :: 0 <= i < |items| ==> items[i].id !in ByTask(items[..i])
  }

  ghost predicate Acceptable(snap: Snapshot) {
    && FreshClasses(snap.classes)
    && FreshPools(snap.pools)
    && FreshChildren(snap.instantiations)
    && FreshTasks(snap.cleanups)
    && UniqueIds(snap.holdings)
    && LedgerState.Invariant(StateOf(snap))
  }

  lemma {:induction false} FiledByTask(items: seq<CleanupRecord>)
    ensures Filed(ByTask(items))
  {
    if items != [] {
      FiledByTask(items[..|items| - 1]);
    }
  }

  lemma {:induction false} ClassesFiled(items: seq<ClassDecl>)
    requires forall i :: 0 <= i < |items| ==> items[i].Registrable()
    ensures forall c :: c in ByClass(items) ==> ByClass(items)[c].classId == c && ByClass(items)[c].Registrable()
  {
    if items != [] {
      ClassesFiled(items[..|items| - 1]);
    }
  }

  lemma {:induction false} NextAfterFacts(items: seq<Holding>)
    requires forall i :: 0 <= i < |items| ==> items[i].id <= I64_MAX
    ensures NextAfter(items) <= I64_MAX + 1
    ensures forall i :: 0 <= i < |items| ==> items[i].id < NextAfter(items)
    ensures NextAfter(items) == 0 || exists i :: 0 <= i < |items| && items[i].id == NextAfter(items) - 1
  {
    if items != [] {
      var n := |items| - 1;
      NextAfterFacts(items[..n]);
      if NextAfter(items) != 0 && NextAfter(items) == NextAfter(items[..n]) {
        var i :| 0 <= i < n && items[..n][i].id == NextAfter(items) - 1;
        assert items[i].id == NextAfter(items) - 1;
      } else {
        assert items[n].id == NextAfter(items) - 1;
      }
    }
  }

  lemma NoRows(vec: seq<Holding>)
    requires UniqueIds(vec)
    ensures vec != [] ==> RowsOf(vec) != map[]
  {
    if vec != [] {
      assert vec[0].id in RowsOf(vec);
    }
  }

  method LoadClasses(l: Ledger, items: seq<ClassDecl>) returns (r: Answer<()>)
    requires l.Valid() && l.View() == Empty
    modifies l
    ensures l.Valid() && l.identity == old(l.identity)
    ensures r.Ok? <==> FreshClasses(items)
    ensures r.Ok? ==> l.View() == Empty.(classes := ByClass(items)) && l.holdings == []
  {
    hide LedgerState.Valid;
    NoRows(l.holdings);
    for k := 0 to |items|
      invariant l.Valid() && l.identity == old(l.identity)
      invariant l.View() == Empty.(classes := ByClass(items[..k])) && l.holdings == []
      invariant forall i {:trigger items[i]} :: 0 <= i < k ==>
                  items[i].Registrable() && items[i].classId !in ByClass(items[..i])
    {
      assert items[..k + 1][..k] == items[..k];
      if items[k].classId in l.classes {
        return Err(ClassConflict);
      }
      var registered := l.RegisterClass(items[k]);
      if registered.Err? {
        return Err(registered.error);
      }
      NoRows(l.holdings);
    }
    assert items[..|items|] == items;
    return Ok(());
  }

  method LoadPools(items: seq<PoolRecord>) returns (r: Option<map<ResourceKey, Frag>>)
    ensures r.Some? <==> FreshPools(items)
    ensures r.Some? ==> r.value == ByPool(items)
  {
    var m: map<ResourceKey, Frag> := map[];
    for k := 0 to |items|
      invariant m == ByPool(items[..k])
      invariant forall i {:trigger items[i]} :: 0 <= i < k ==> items[i].key !in ByPool(items[..i])
    {
      assert items[..k + 1][..k] == items[..k];
      if items[k].key in m {
        return None;
      }
      m := m[items[k].key := items[k].capacity];
    }
    assert items[..|items|] == items;
    return Some(m);
  }

  method LoadInstantiations(items: seq<(Name, Name)>) returns (r: Option<map<Name, Name>>)
    ensures r.Some? <==> FreshChildren(items)
    ensures r.Some? ==> r.value == ByChild(items)
  {
    var m: map<Name, Name> := map[];
    for k := 0 to |items|
      invariant m == ByChild(items[..k])
      invariant forall i {:trigger items[i]} :: 0 <= i < k ==> items[i].0 !in ByChild(items[..i])
    {
      assert items[..k + 1][..k] == items[..k];
      if items[k].0 in m {
        return None;
      }
      m := m[items[k].0 := items[k].1];
    }
    assert items[..|items|] == items;
    return Some(m);
  }

  method LoadCleanups(items: seq<CleanupRecord>) returns (r: Option<map<nat, CleanupRecord>>)
    ensures r.Some? <==> FreshTasks(items)
    ensures r.Some? ==> r.value == ByTask(items)
  {
    var m: map<nat, CleanupRecord> := map[];
    for k := 0 to |items|
      invariant m == ByTask(items[..k])
      invariant forall i {:trigger items[i]} :: 0 <= i < k ==> items[i].id !in ByTask(items[..i])
    {
      assert items[..k + 1][..k] == items[..k];
      if items[k].id in m {
        return None;
      }
      m := m[items[k].id := items[k]];
    }
    assert items[..|items|] == items;
    return Some(m);
  }

  method NextFree(items: seq<Holding>) returns (n: nat)
    ensures n == NextAfter(items)
  {
    n := 0;
    for k := 0 to |items|
      invariant n == NextAfter(items[..k])
    {
      assert items[..k + 1][..k] == items[..k];
      if items[k].id + 1 > n {
        n := items[k].id + 1;
      }
    }
    assert items[..|items|] == items;
  }

  // Only a checked graph becomes a ledger. Holding ids were validated against the
  // database integer range when they were read.
  method Build(snap: Snapshot, identity: nat) returns (r: Answer<Ledger>)
    requires forall i :: 0 <= i < |snap.holdings| ==> snap.holdings[i].id <= I64_MAX
    ensures r.Ok? <==> Acceptable(snap)
    ensures r.Ok? ==>
              fresh(r.value) && r.value.Valid() && r.value.View() == StateOf(snap) &&
              r.value.identity == identity
    ensures r.Ok? ==> r.value.holdings == snap.holdings
  {
    hide LedgerState.Invariant, UniqueIds, FreshClasses, FreshPools, FreshChildren, FreshTasks, Numbered;
    var l := new Ledger(identity);
    var classes := LoadClasses(l, snap.classes);
    if classes.Err? {
      return Err(classes.error);
    }
    var pools := LoadPools(snap.pools);
    if pools.None? {
      return Err(PoolExists);
    }
    var instantiations := LoadInstantiations(snap.instantiations);
    if instantiations.None? {
      return Err(InvalidGraph);
    }
    var next := NextFree(snap.holdings);
    var cleanups := LoadCleanups(snap.cleanups);
    if cleanups.None? {
      return Err(InvalidCleanup);
    }
    l.capacities := pools.value;
    l.instantiations := instantiations.value;
    l.holdings := snap.holdings;
    l.nextId := next;
    l.cleanups := cleanups.value;
    var sealed := Seal(l, snap);
    if sealed.Err? {
      return Err(sealed.error);
    }
    return Ok(l);
  }

  // The final check of a ledger filled from a snapshot.
  method Seal(l: Ledger, snap: Snapshot) returns (r: Answer<()>)
    requires forall i :: 0 <= i < |snap.holdings| ==> snap.holdings[i].id <= I64_MAX
    requires FreshClasses(snap.classes)
    requires l.classes == ByClass(snap.classes) && l.capacities == ByPool(snap.pools) && l.holdings == snap.holdings
    requires l.nextId == NextAfter(snap.holdings) && l.cleanups == ByTask(snap.cleanups)
    requires l.instantiations == ByChild(snap.instantiations)
    ensures r.Ok? <==> UniqueIds(snap.holdings) && LedgerState.Invariant(StateOf(snap))
    ensures r.Ok? ==> l.Valid() && l.View() == StateOf(snap)
  {
    hide LedgerState.Invariant, UniqueIds, FreshClasses, Numbered;
    NextAfterFacts(snap.holdings);
    FiledByTask(snap.cleanups);
    r := CheckInvariant(l);
    if r.Ok? {
      StateNumbered(snap);
    }
  }

  lemma StateNumbered(snap: Snapshot)
    requires UniqueIds(snap.holdings) && forall i :: 0 <= i < |snap.holdings| ==> snap.holdings[i].id <= I64_MAX
    requires FreshClasses(snap.classes)
    ensures Numbered(StateOf(snap))
  {
    NextAfterFacts(snap.holdings);
    ClassesFiled(snap.classes);
  }

  // ----- taking a snapshot, and the round trip -----

  method ListClasses(m: map<Name, ClassDecl>) returns (items: seq<ClassDecl>)
    requires forall c :: c in m ==> m[c].classId == c
    ensures ByClass(items) == m
    ensures (forall c :: c in m ==> m[c].Registrable()) ==> FreshClasses(items)
  {
    hide FreshClasses, ByClass;
    items := [];
    NoClasses();
    var todo := m.Keys;
    while todo != {}
      invariant todo <= m.Keys
      invariant ByClass(items) == map c | c in m && c !in todo :: m[c]
      invariant (forall c :: c in m ==> m[c].Registrable()) ==> FreshClasses(items)
      decreases |todo|
    {
      var c :| c in todo;
      FreshClassesSnoc(items, m[c]);
      items := items + [m[c]];
      todo := todo - {c};
    }
  }

  lemma NoClasses()
    ensures FreshClasses([]) && ByClass([]) == map[]
  {
  }

  lemma FreshClassesSnoc(items: seq<ClassDecl>, x: ClassDecl)
    ensures ByClass(items + [x]) == ByClass(items)[x.classId := x]
    ensures FreshClasses(items) && x.Registrable() && x.classId !in ByClass(items) ==> FreshClasses(items + [x])
  {
    var all := items + [x];
    assert all[..|all| - 1] == items;
    forall i | 0 <= i < |items|
      ensures all[..i] == items[..i] && all[i] == items[i]
    {
    }
  }

  method ListPools(m: map<ResourceKey, Frag>) returns (items: seq<PoolRecord>)
    ensures ByPool(items) == m && FreshPools(items)
  {
    items := [];
    var todo := m.Keys;
    while todo != {}
      invariant todo <= m.Keys
      invariant ByPool(items) == map k | k in m && k !in todo :: m[k]
      invariant FreshPools(items)
      decreases |todo|
    {
      var k :| k in todo;
      ghost var before := items;
      items := items + [PoolRecord(k, m[k])];
      todo := todo - {k};
      assert items[..|items| - 1] == before;
      assert forall i :: 0 <= i < |before| ==> items[..i] == before[..i];
    }
  }

  method ListInstantiations(m: map<Name, Name>) returns (items: seq<(Name, Name)>)
    ensures ByChild(items) == m && FreshChildren(items)
  {
    items := [];
    var todo := m.Keys;
    while todo != {}
      invariant todo <= m.Keys
      invariant ByChild(items) == map k | k in m && k !in todo :: m[k]
      invariant FreshChildren(items)
      decreases |todo|
    {
      var k :| k in todo;
      ghost var before := items;
      items := items + [(k, m[k])];
      todo := todo - {k};
      assert items[..|items| - 1] == before;
      assert forall i :: 0 <= i < |before| ==> items[..i] == before[..i];
    }
  }

  method ListCleanups(m: map<nat, CleanupRecord>) returns (items: seq<CleanupRecord>)
    requires Filed(m)
    ensures ByTask(items) == m && FreshTasks(items)
  {
    items := [];
    var todo := m.Keys;
    while todo != {}
      invariant todo <= m.Keys
      invariant ByTask(items) == map k | k in m && k !in todo :: m[k]
      invariant FreshTasks(items)
      decreases |todo|
    {
      var k :| k in todo;
      ghost var before := items;
      items := items + [m[k]];
      todo := todo - {k};
      assert items[..|items| - 1] == before;
      assert forall i :: 0 <= i < |before| ==> items[..i] == before[..i];
    }
  }

  lemma NextIdRecovered(l: Ledger)
    requires l.Valid()
    ensures NextAfter(l.holdings) == l.nextId
    ensures forall i :: 0 <= i < |l.holdings| ==> l.holdings[i].id <= I64_MAX
  {
    var s := l.View();
    forall i | 0 <= i < |l.holdings|
      ensures l.holdings[i].id < l.nextId
    {
      assert l.holdings[i].id in s.holdings;
    }
    NextAfterFacts(l.holdings);
    if l.nextId > 0 {
      var i :| 0 <= i < |l.holdings| && l.holdings[i].id == l.nextId - 1;
    }
  }

  lemma ValidFiled(s: State)
    requires TasksOk(s)
    ensures Filed(s.cleanups)
  {
    forall id | id in s.cleanups
      ensures s.cleanups[id].id == id
    {
      assert TaskOk(s, id);
    }
  }

  method TakeSnapshot(l: Ledger) returns (snap: Snapshot)
    requires l.Valid()
    ensures snap.holdings == l.holdings
    ensures StateOf(snap) == l.View() && Acceptable(snap)
  {
    ValidFiled(l.View());
    NextIdRecovered(l);
    hide LedgerState.Invariant, UniqueIds, FreshClasses, FreshPools, FreshChildren, FreshTasks;
    var classes := ListClasses(l.classes);
    var pools := ListPools(l.capacities);
    var instantiations := ListInstantiations(l.instantiations);
    var cleanups := ListCleanups(l.cleanups);
    snap := Snapshot(classes, pools, l.holdings, instantiations, cleanups);
  }

  // Rebuilding the snapshot of any valid ledger gives back the same ledger, including
  // the next id.
  method RoundTrip(l: Ledger, identity: nat) returns (copy: Ledger)
    requires l.Valid()
    ensures fresh(copy) && copy.Valid() && copy.View() == l.View() && copy.holdings == l.holdings
  {
    var snap := TakeSnapshot(l);
    NextIdRecovered(l);
    hide LedgerState.Valid, Acceptable;
    var built := Build(snap, identity);
    copy := built.value;
  }
}
