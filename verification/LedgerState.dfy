// The abstract ledger and its declarative invariant.

module LedgerState {
  import opened Prelude
  import opened Algebra
  import opened Auth
  import opened LedgerTypes

  type Rows = map<nat, Holding>

  datatype State = State(
    classes: map<Name, ClassDecl>,
    pools: map<ResourceKey, Frag>,
    holdings: Rows,
    nextId: nat,
    cleanups: map<nat, CleanupRecord>,
    instantiations: map<Name, Name>)

  const Empty: State := State(map[], map[], map[], 0, map[], map[])

  predicate Occupying(hs: Rows, id: nat) {
    id in hs && hs[id].state.Occupies()
  }

  predicate ChildOf(hs: Rows, child: nat, parent: nat) {
    child in hs && hs[child].parent == Some(parent)
  }

  predicate HasOccupyingChild(hs: Rows, id: nat) {
    exists c :: c in hs && ChildOf(hs, c, id) && Occupying(hs, c)
  }

  // ----- the parent forest -----

  // `id` reaches a root through existing rows in at most `n` parent steps.
  predicate RootedIn(hs: Rows, id: nat, n: nat)
    decreases n
  {
    && id in hs
    && (hs[id].parent.None? || (n > 0 && RootedIn(hs, hs[id].parent.value, n - 1)))
  }

  ghost predicate Rooted(hs: Rows, id: nat) {
    exists n: nat :: RootedIn(hs, id, n)
  }

  ghost predicate Forest(hs: Rows) {
    forall id {:trigger Rooted(hs, id)} :: id in hs ==> Rooted(hs, id)
  }

  // `id` is `n` parent steps below `top`.
  predicate BelowIn(hs: Rows, id: nat, top: nat, n: nat)
    decreases n
  {
    && id in hs
    && (if n == 0 then id == top else hs[id].parent.Some? && BelowIn(hs, hs[id].parent.value, top, n - 1))
  }

  ghost predicate Below(hs: Rows, id: nat, top: nat) {
    exists n: nat :: BelowIn(hs, id, top, n)
  }

  // ----- pools -----

  predicate Charges(h: Holding, key: ResourceKey) {
    h.state.Occupies() && h.Key() == key
  }

  // Fragments charged to `key` by rows with id below `n`, in id order.
  function LiveUpTo(hs: Rows, key: ResourceKey, n: nat): seq<Frag> {
    if n == 0 then []
    else
      var rest := LiveUpTo(hs, key, n - 1);
      if n - 1 in hs && Charges(hs[n - 1], key) then rest + [hs[n - 1].frag] else rest
  }

  function LiveFrags(s: State, key: ResourceKey): seq<Frag> {
    LiveUpTo(s.holdings, key, s.nextId)
  }

  // ----- the invariant, clause by clause -----

  predicate RowOk(s: State, id: nat)
    requires id in s.holdings
  {
    var h := s.holdings[id];
    && h.id == id
    && h.generation != ""
    && h.classId in s.classes
    && h.frag.Tag() == s.classes[h.classId].algebra
    && h.frag.Valid()
    && (h.lease.ParentBound? ==> h.parent.Some?)
    && (h.state.Occupies() ==> h.Key() in s.pools)
    && (h.parent.Some? ==> h.parent.value in s.holdings)
    && (h.parent.Some? && h.state.Occupies() ==> Occupying(s.holdings, h.parent.value))
  }

  predicate RetirementOk(s: State, id: nat)
    requires id in s.holdings
  {
    var h := s.holdings[id];
    && h.classId in s.classes
    && h.target.Policy() == s.classes[h.classId].cleanup
    && (h.state.Active? && h.lease.ParentBound? && h.parent.Some? && h.parent.value in s.holdings ==>
          s.holdings[h.parent.value].state.Active?)
    && (h.target.Unresolved? ==> !h.state.Active?)
    && (h.state.Retiring? ==>
          && h.state.task in s.cleanups
          && s.cleanups[h.state.task].holding == h.Ref()
          && !s.cleanups[h.state.task].state.Done?)
    && (h.state.Retired? && h.target.Policy().Managed? ==>
          && h.id in s.cleanups
          && s.cleanups[h.id].holding == h.Ref()
          && s.cleanups[h.id].state.Done?)
  }

  predicate TaskOk(s: State, id: nat)
    requires id in s.cleanups
  {
    var t := s.cleanups[id];
    && t.id == id
    && t.holding.id == id
    && id in s.holdings
    && s.holdings[id].generation == t.holding.generation
    && t.attempts <= I64_MAX
    && match t.state {
      case Done(Confirmed) => t.attempts > 0 && s.holdings[id].state.Retired?
      case Done(AlreadyAbsent) => s.holdings[id].state.Retired?
      case Running(_) => t.attempts > 0 && s.holdings[id].state == Retiring(id)
      case _ => s.holdings[id].state == Retiring(id)
    }
  }

  // Two occupying rows own the same physical resource.
  predicate Clash(hs: Rows, a: nat, b: nat) {
    a != b && Occupying(hs, a) && Occupying(hs, b) && hs[a].target.ConflictsWith(hs[b].target)
  }

  ghost predicate NoTargetConflicts(hs: Rows) {
    forall a: nat, b: nat :: !Clash(hs, a, b)
  }

  predicate SharedKey(tasks: map<nat, CleanupRecord>, a: nat, b: nat) {
    a != b && a in tasks && b in tasks && tasks[a].key == tasks[b].key
  }

  ghost predicate KeysUnique(tasks: map<nat, CleanupRecord>) {
    forall a: nat, b: nat :: !SharedKey(tasks, a, b)
  }

  predicate PoolOk(s: State, key: ResourceKey)
    requires key in s.pools
  {
    && key.classId in s.classes
    && s.pools[key].Tag() == s.classes[key.classId].algebra
    && s.pools[key].Valid()
    && Fits(s.pools[key], LiveFrags(s, key))
  }

  // The explicit triggers keep a row from dragging in its whole ancestor chain.
  ghost predicate RowsOk(s: State) {
    forall id {:trigger RowOk(s, id)} :: id in s.holdings ==> RowOk(s, id)
  }

  ghost predicate RetirementsOk(s: State) {
    forall id {:trigger RetirementOk(s, id)} :: id in s.holdings ==> RetirementOk(s, id)
  }

  ghost predicate TasksOk(s: State) {
    forall id {:trigger TaskOk(s, id)} :: id in s.cleanups ==> TaskOk(s, id)
  }

  ghost predicate PoolsOk(s: State) {
    forall key {:trigger PoolOk(s, key)} :: key in s.pools ==> PoolOk(s, key)
  }

  // Exactly what the executable checker decides.
  ghost predicate Invariant(s: State) {
    && RowsOk(s)
    && Forest(s.holdings)
    && RetirementsOk(s)
    && TasksOk(s)
    && NoTargetConflicts(s.holdings)
    && KeysUnique(s.cleanups)
    && PoolsOk(s)
  }

  predicate IdsBelow(hs: Rows, n: nat) {
    forall id :: id in hs ==> id < n
  }

  // Bookkeeping the checker does not look at, true of every constructed ledger.
  predicate Numbered(s: State) {
    && s.nextId <= I64_MAX + 1
    && IdsBelow(s.holdings, s.nextId)
    && (s.nextId == 0 || s.nextId - 1 in s.holdings)
    && (forall c :: c in s.classes ==> s.classes[c].classId == c && s.classes[c].Registrable())
  }

  ghost predicate Valid(s: State) {
    Invariant(s) && Numbered(s)
  }
}
