// The ledger invariant in plain facts: what each resource, each claim and each obligation of a
// valid ledger looks like, stated without the predicates the checker is built from.

module LedgerFacts {
  import opened Prelude
  import opened Algebra
  import opened Auth
  import opened LedgerTypes
  import opened LedgerState
  import opened LedgerInvariant
  import opened LedgerRows
  import opened PoolRoom

  // ----- targets -----

  // What a cleanup target stands for in the world; two targets conflict when they share one.
  datatype Thing =
    | OfProcess(incarnation: ProcessWitness)
    | OfPath(path: Name)
    | OfInode(device: nat, inode: nat)
    | OfEndpoint(endpoint: PortWitness)
    | OfSubscription(host: HostWitness, number: nat)

  predicate Owns(t: CleanupTarget, x: Thing) {
    match x
    case OfProcess(w) => (t.Process? && t.incarnation == w) || (t.Plugin? && t.process == w)
    case OfPath(p) => t.FileLock? && t.lock.path == p
    case OfInode(d, i) => t.FileLock? && t.lock.device == d && t.lock.inode == i
    case OfEndpoint(e) => t.Port? && t.endpoint == e
    case OfSubscription(h, n) => t.Subscription? && t.host == h && t.subscription == n
  }

  lemma ConflictExact(a: CleanupTarget, b: CleanupTarget)
    ensures a.ConflictsWith(b) <==> exists x :: Owns(a, x) && Owns(b, x)
  {
    if a.ConflictsWith(b) {
      var x :=
        if a.Process? then OfProcess(a.incarnation)
        else if a.Plugin? then OfProcess(a.process)
        else if a.Port? then OfEndpoint(a.endpoint)
        else if a.Subscription? then OfSubscription(a.host, a.subscription)
        else if a.FileLock? && b.FileLock? && a.lock.path == b.lock.path then OfPath(a.lock.path)
        else if a.FileLock? then OfInode(a.lock.device, a.lock.inode)
        else OfPath("");
      assert Owns(a, x) && Owns(b, x);
    }
  }

  // The targets a class may be given, by its cleanup policy.
  predicate Suits(policy: CleanupPolicy, t: CleanupTarget) {
    match policy
    case AccountingPolicy => t.AccountingOnly?
    case Managed(k) =>
      match t
      case Unresolved(kind, _) => kind == k
      case Process(_) => k == ProcessKind
      case FileLock(_) => k == FileLockKind
      case Port(_) => k == PortKind
      case Subscription(_, _) => k == SubscriptionKind
      case Plugin(_, _) => k == PluginKind
      case Provider => k == ProviderKind
      case AccountingOnly => false
  }

  lemma SuitsExact(policy: CleanupPolicy, t: CleanupTarget)
    ensures t.Policy() == policy <==> Suits(policy, t)
  {
  }

  // A managed class other than a provider hands out tokens, released any number of times; one whose
  // release is not idempotent is only compensable.
  predicate MayRegister(d: ClassDecl) {
    d.cleanup.Managed? ==>
      && (d.cleanup.kind == ProviderKind || (d.algebra == Exclusive && d.releaseIdempotent))
      && (d.releaseIdempotent || d.revertGrade == Compensable)
  }

  // ----- the parent forest -----

  // Parents exist, and some ranking puts every parent strictly below its children.
  predicate Ranks(hs: Rows, rank: map<nat, nat>) {
    && hs.Keys <= rank.Keys
    && forall id {:trigger hs[id]} :: id in hs && hs[id].parent.Some? ==>
         hs[id].parent.value in hs && rank[hs[id].parent.value] < rank[id]
  }

  lemma {:induction false} RankedRooted(hs: Rows, rank: map<nat, nat>, id: nat)
    requires Ranks(hs, rank) && id in hs
    ensures RootedIn(hs, id, rank[id])
    decreases rank[id]
  {
    if hs[id].parent.Some? {
      var p := hs[id].parent.value;
      RankedRooted(hs, rank, p);
      RootedDeeper(hs, p, rank[p], rank[id] - 1);
    }
  }

  lemma {:induction false} RootedDeeper(hs: Rows, id: nat, n: nat, m: nat)
    requires RootedIn(hs, id, n) && n <= m
    ensures RootedIn(hs, id, m)
    decreases n
  {
    if hs[id].parent.Some? {
      RootedDeeper(hs, hs[id].parent.value, n - 1, m - 1);
    }
  }

  lemma HasDepth(hs: Rows, id: nat)
    requires Forest(hs) && id in hs
    ensures exists d: nat :: AtDepth(hs, id, d)
  {
    assert Rooted(hs, id);
    var n: nat :| RootedIn(hs, id, n);
    var d := RootedHasDepth(hs, id, n);
  }

  ghost function DepthOf(hs: Rows, id: nat): nat
    requires Forest(hs) && id in hs
  {
    HasDepth(hs, id);
    var d: nat :| AtDepth(hs, id, d);
    d
  }

  lemma ForestExact(hs: Rows)
    ensures Forest(hs) <==> exists rank :: Ranks(hs, rank)
  {
    if Forest(hs) {
      var rank := map id | id in hs :: DepthOf(hs, id);
      forall id | id in hs && hs[id].parent.Some?
        ensures hs[id].parent.value in hs && rank[hs[id].parent.value] < rank[id]
      {
        HasDepth(hs, id);
        var p := hs[id].parent.value;
        assert AtDepth(hs, id, rank[id]);
        HasDepth(hs, p);
        DepthUnique(hs, p, rank[p], rank[id] - 1);
      }
      assert Ranks(hs, rank);
    }
    forall rank, id | Ranks(hs, rank) && id in hs
      ensures Rooted(hs, id)
    {
      RankedRooted(hs, rank, id);
    }
  }

  // ----- the claims charged to a pool -----

  predicate InPool(hs: Rows, key: ResourceKey, id: nat) {
    id in hs && !hs[id].state.Retired? && hs[id].classId == key.classId && hs[id].instance == key.instance
  }

  // Rows not yet retired, of the pool's class and instance, by increasing id.
  ghost predicate ListsClaims(hs: Rows, key: ResourceKey, n: nat, ids: seq<nat>) {
    && (forall i, j :: 0 <= i < j < |ids| ==> ids[i] < ids[j])
    && forall id: nat {:trigger id in ids} ::
         id in ids <==> id < n && InPool(hs, key, id)
  }

  ghost function ClaimsOf(hs: Rows, ids: seq<nat>): seq<Frag> {
    seq(|ids|, i requires 0 <= i < |ids| => if ids[i] in hs then hs[ids[i]].frag else SetFrag({}))
  }

  lemma {:induction false} LiveExact(hs: Rows, key: ResourceKey, n: nat) returns (ids: seq<nat>)
    ensures ListsClaims(hs, key, n, ids) && LiveUpTo(hs, key, n) == ClaimsOf(hs, ids)
  {
    ids := [];
    if n > 0 {
      ids := LiveExact(hs, key, n - 1);
      assert forall i :: 0 <= i < |ids| ==> ids[i] in ids && ids[i] < n - 1;
      if n - 1 in hs && Charges(hs[n - 1], key) {
        assert LiveUpTo(hs, key, n) == ClaimsOf(hs, ids + [n - 1]);
        ids := ids + [n - 1];
      }
    }
  }

  lemma BothListed(hs: Rows, key: ResourceKey, n: nat, a: seq<nat>, b: seq<nat>)
    requires ListsClaims(hs, key, n, a) && ListsClaims(hs, key, n, b) && a != []
    ensures b != []
  {
    assert a[0] in a;
    assert a[0] in b;
  }

  lemma {:induction false} ListUnique(hs: Rows, key: ResourceKey, n: nat, a: seq<nat>, b: seq<nat>)
    requires ListsClaims(hs, key, n, a) && ListsClaims(hs, key, n, b)
    ensures a == b
    decreases n
  {
    if a != [] && b != [] {
      var x, y := a[|a| - 1], b[|b| - 1];
      assert x in a && y in b;
      assert x in b && y in a;
      assert x == y;
      FrontLists(hs, key, n, a);
      FrontLists(hs, key, n, b);
      ListUnique(hs, key, x, a[..|a| - 1], b[..|b| - 1]);
      assert a == a[..|a| - 1] + [x] && b == b[..|b| - 1] + [y];
    } else if a != [] {
      BothListed(hs, key, n, a, b);
    } else if b != [] {
      BothListed(hs, key, n, b, a);
    }
  }

  lemma FrontLists(hs: Rows, key: ResourceKey, n: nat, a: seq<nat>)
    requires ListsClaims(hs, key, n, a) && a != []
    ensures a[|a| - 1] in a && a[|a| - 1] < n
    ensures ListsClaims(hs, key, a[|a| - 1], a[..|a| - 1])
  {
    var x, front := a[|a| - 1], a[..|a| - 1];
    assert a == front + [x];
    forall id: nat
      ensures id in front <==> id in a && id < x
    {
    }
  }

  // ----- the facts -----

  // A row: its own id, a generation, a valid claim of its class's algebra, a target its class may
  // have, and, while it occupies, a pool and an occupying parent.
  ghost predicate RowFacts(s: State, id: nat)
    requires id in s.holdings
  {
    var h := s.holdings[id];
    && h.id == id && h.generation != "" && h.classId in s.classes
    && h.frag.Tag() == s.classes[h.classId].algebra && h.frag.Valid()
    && Suits(s.classes[h.classId].cleanup, h.target)
    && (h.lease == ParentBound ==> h.parent.Some?)
    && (!h.state.Retired? ==>
          && ResourceKey(h.classId, h.instance) in s.pools
          && (h.parent.Some? && h.parent.value in s.holdings ==> !s.holdings[h.parent.value].state.Retired?))
    && (h.state == Active ==>
          && !h.target.Unresolved?
          && (h.lease == ParentBound && h.parent.value in s.holdings ==>
                s.holdings[h.parent.value].state == Active))
    && (h.state.Retiring? ==>
          && h.state.task in s.cleanups && !s.cleanups[h.state.task].state.Done?
          && s.cleanups[h.state.task].holding == Handle(id, h.generation))
    && (h.state.Retired? && !h.target.AccountingOnly? ==>
          id in s.cleanups && s.cleanups[id].state.Done? && s.cleanups[id].holding == Handle(id, h.generation))
  }

  // A task: it belongs to the row of its id, which is retired exactly when the task is done.
  ghost predicate TaskFacts(s: State, id: nat)
    requires id in s.cleanups
  {
    var t := s.cleanups[id];
    && t.id == id && t.attempts <= I64_MAX
    && id in s.holdings && t.holding == Handle(id, s.holdings[id].generation)
    && (if t.state.Done? then s.holdings[id].state.Retired? else s.holdings[id].state == Retiring(id))
    && (t.state.Running? || t.state == Done(Confirmed) ==> t.attempts > 0)
  }

  ghost predicate Facts(s: State) {
    && (forall id {:trigger RowFacts(s, id)} :: id in s.holdings ==> RowFacts(s, id))
    && (exists rank :: Ranks(s.holdings, rank))
    && (forall id {:trigger TaskFacts(s, id)} :: id in s.cleanups ==> TaskFacts(s, id))
    && OneOwner(s.holdings)
    && (forall a, b {:trigger s.cleanups[a], s.cleanups[b]} ::
          a in s.cleanups && b in s.cleanups && s.cleanups[a].key == s.cleanups[b].key ==> a == b)
    && (forall key {:trigger s.pools[key]} :: key in s.pools ==> PoolFacts(s, key))
  }

  predicate OwnedBy(hs: Rows, id: nat, x: Thing) {
    id in hs && !hs[id].state.Retired? && Owns(hs[id].target, x)
  }

  // Nothing in the world has two occupying rows.
  ghost predicate OneOwner(hs: Rows) {
    forall a, b, x :: OwnedBy(hs, a, x) && OwnedBy(hs, b, x) ==> a == b
  }

  ghost predicate PoolFacts(s: State, key: ResourceKey)
    requires key in s.pools
  {
    && key.classId in s.classes && s.pools[key].Tag() == s.classes[key.classId].algebra && s.pools[key].Valid()
    && forall ids :: ListsClaims(s.holdings, key, s.nextId, ids) ==> Room(s.pools[key], ClaimsOf(s.holdings, ids))
  }

  lemma PoolExact(s: State, key: ResourceKey)
    requires key in s.pools
    ensures PoolOk(s, key) <==> PoolFacts(s, key)
  {
    hide Room, Fits;
    var live := LiveExact(s.holdings, key, s.nextId);
    forall ids | ListsClaims(s.holdings, key, s.nextId, ids)
      ensures ids == live
    {
      ListUnique(s.holdings, key, s.nextId, ids, live);
    }
    if s.pools[key].Valid() {
      FitsExact(s.pools[key], LiveFrags(s, key));
    }
  }

  lemma OwnersExact(hs: Rows)
    ensures NoTargetConflicts(hs) <==> OneOwner(hs)
  {
    hide Owns;
    if NoTargetConflicts(hs) {
      forall a, b, x | OwnedBy(hs, a, x) && OwnedBy(hs, b, x)
        ensures a == b
      {
        ConflictExact(hs[a].target, hs[b].target);
        assert !Clash(hs, a, b);
      }
    }
    if OneOwner(hs) {
      forall a: nat, b: nat
        ensures !Clash(hs, a, b)
      {
        if a in hs && b in hs {
          ConflictExact(hs[a].target, hs[b].target);
          forall x | a != b && Occupying(hs, a) && Occupying(hs, b)
            ensures !(Owns(hs[a].target, x) && Owns(hs[b].target, x))
          {
            assert OwnedBy(hs, a, x) ==> !OwnedBy(hs, b, x);
          }
        }
      }
    }
  }

  lemma KeysExact(s: State)
    ensures KeysUnique(s.cleanups) <==>
            forall a, b {:trigger s.cleanups[a], s.cleanups[b]} ::
              a in s.cleanups && b in s.cleanups && s.cleanups[a].key == s.cleanups[b].key ==> a == b
  {
    if KeysUnique(s.cleanups) {
      forall a, b | a in s.cleanups && b in s.cleanups && s.cleanups[a].key == s.cleanups[b].key
        ensures a == b
      {
        assert !SharedKey(s.cleanups, a, b);
      }
    }
  }

  lemma RowExact(s: State, id: nat)
    requires id in s.holdings && (s.holdings[id].parent.Some? ==> s.holdings[id].parent.value in s.holdings)
    requires TasksOk(s) && forall t {:trigger TaskFacts(s, t)} :: t in s.cleanups ==> TaskFacts(s, t)
    ensures RowOk(s, id) && RetirementOk(s, id) <==> RowFacts(s, id)
  {
    var h := s.holdings[id];
    if h.classId in s.classes {
      SuitsExact(s.classes[h.classId].cleanup, h.target);
    }
    if h.state.Retiring? && h.state.task in s.cleanups {
      assert TaskOk(s, h.state.task);
    }
  }

  lemma TaskExact(s: State, id: nat)
    requires id in s.cleanups
    ensures TaskOk(s, id) <==> TaskFacts(s, id)
  {
  }

  // The invariant the executable checker decides is exactly these facts.
  lemma InvariantExact(s: State)
    ensures Invariant(s) <==> Facts(s)
  {
    hide RowOk, RetirementOk, TaskOk, PoolOk, RowFacts, TaskFacts, PoolFacts, OneOwner, Clash, SharedKey, Rooted;
    ForestExact(s.holdings);
    OwnersExact(s.holdings);
    KeysExact(s);
    forall key | key in s.pools
      ensures PoolOk(s, key) <==> PoolFacts(s, key)
    {
      PoolExact(s, key);
    }
    forall id | id in s.cleanups
      ensures TaskOk(s, id) <==> TaskFacts(s, id)
    {
      TaskExact(s, id);
    }
    if TasksOk(s) && exists rank :: Ranks(s.holdings, rank) {
      forall id | id in s.holdings
        ensures RowOk(s, id) && RetirementOk(s, id) <==> RowFacts(s, id)
      {
        RowExact(s, id);
      }
    }
  }

  // ----- what follows for managed classes -----

  // A managed class other than a provider hands out tokens, so each of its pools has at most one
  // occupying row.
  lemma ManagedAlone(s: State, a: nat, b: nat)
    requires Valid(s) && a in s.holdings && b in s.holdings
    requires var h := s.holdings[a];
             && InPool(s.holdings, h.Key(), a) && InPool(s.holdings, h.Key(), b)
             && !h.target.AccountingOnly? && !h.target.Provider?
             && !(h.target.Unresolved? && h.target.kind == ProviderKind)
    ensures a == b
  {
    hide RowFacts, PoolFacts, Room;
    InvariantExact(s);
    assert RowFacts(s, a);
    var key := ResourceKey(s.holdings[a].classId, s.holdings[a].instance);
    var ids := ManagedPool(s, a, key);
    assert a in ids && b in ids;
  }

  lemma ManagedPool(s: State, a: nat, key: ResourceKey) returns (ids: seq<nat>)
    requires Valid(s) && Facts(s) && a in s.holdings && RowFacts(s, a)
    requires var h := s.holdings[a];
             && !h.state.Retired? && key == ResourceKey(h.classId, h.instance)
             && !h.target.AccountingOnly? && !h.target.Provider?
             && !(h.target.Unresolved? && h.target.kind == ProviderKind)
    ensures ListsClaims(s.holdings, key, s.nextId, ids) && |ids| <= 1
    ensures forall id :: InPool(s.holdings, key, id) ==> id in ids
  {
    ids := LiveExact(s.holdings, key, s.nextId);
    assert key in s.pools && PoolFacts(s, key);
    assert s.classes[key.classId].Registrable();
    assert s.pools[key].Tag() == Exclusive;
    assert Room(s.pools[key], ClaimsOf(s.holdings, ids));
  }
}
