// Spending from counted pools: balances, batches of spends, and owner transfer.

module Accounts {
  import opened Prelude
  import opened Algebra
  import opened Auth
  import opened LedgerTypes
  import opened LedgerState
  import opened LedgerOps
  import opened LedgerInvariant
  import opened LedgerRows
  import opened LedgerObject
  import opened Persistence
  import opened StoreProtocol
  import opened LedgerStorage
  import Runs = LedgerRuns

  // ----- what a counted pool has left -----

  function Amount(f: Frag): nat {
    if f.CountFrag? && f.count.Value? then f.count.n else 0
  }

  function Total(fs: seq<Frag>): nat {
    if fs == [] then 0 else Total(fs[..|fs| - 1]) + Amount(fs[|fs| - 1])
  }

  predicate CountedPool(s: State, key: ResourceKey) {
    key in s.pools && s.pools[key].CountFrag? && s.pools[key].count.Value?
  }

  function Spent(s: State, key: ResourceKey): nat {
    Total(LiveFrags(s, key))
  }

  function Balance(s: State, key: ResourceKey): int
    requires CountedPool(s, key)
  {
    s.pools[key].count.n - Spent(s, key)
  }

  predicate AllCounts(fs: seq<Frag>) {
    forall i :: 0 <= i < |fs| ==> fs[i].CountFrag? && fs[i].count.Value?
  }

  // Composition of counts is addition until it overflows.
  lemma {:induction false} ComposeTotal(fs: seq<Frag>)
    requires AllCounts(fs) && fs != []
    ensures Uniform(Counted, fs)
    ensures Compose(Counted, fs) == Some(CountFrag(if Total(fs) <= U64_MAX then Value(Total(fs)) else Invalid))
  {
    var n := |fs| - 1;
    var front := fs[..n];
    assert fs == front + [fs[n]];
    ComposeSnoc(Counted, front, fs[n]);
    if n > 0 {
      ComposeTotal(front);
    } else {
      assert Total(front) == 0;
    }
  }

  lemma CountsFit(capacity: U64, fs: seq<Frag>)
    requires AllCounts(fs)
    ensures Uniform(Counted, fs) && (Fits(CountFrag(Value(capacity)), fs) <==> Total(fs) <= capacity)
  {
    if fs != [] {
      ComposeTotal(fs);
    }
  }

  lemma {:induction false} LiveOfPool(s: State, key: ResourceKey, n: nat)
    requires RowsOk(s) && PoolsOk(s) && CountedPool(s, key)
    ensures AllCounts(LiveUpTo(s.holdings, key, n))
  {
    if n > 0 {
      LiveOfPool(s, key, n - 1);
      assert PoolOk(s, key);
      if n - 1 in s.holdings {
        assert RowOk(s, n - 1);
      }
    }
  }

  // No counted pool of a valid ledger is overdrawn.
  lemma NeverOverdrawn(s: State, key: ResourceKey)
    requires Valid(s) && CountedPool(s, key)
    ensures AllCounts(LiveFrags(s, key)) && 0 <= Balance(s, key)
  {
    LiveOfPool(s, key, s.nextId);
    assert PoolOk(s, key);
    CountsFit(s.pools[key].count.n, LiveFrags(s, key));
  }

  lemma {:induction false} TotalPermutes(a: seq<Frag>, b: seq<Frag>)
    requires multiset(a) == multiset(b)
    ensures Total(a) == Total(b)
    decreases |a|
  {
    if a == [] {
      assert |multiset(b)| == 0;
    } else {
      var n := |a| - 1;
      var front, last := a[..n], a[n];
      assert a == front + [last];
      assert last in multiset(b);
      var i :| 0 <= i < |b| && b[i] == last;
      TotalPermutes(front, Without(b, i));
      TotalWithout(b, i);
    }
  }

  lemma {:induction false} TotalWithout(fs: seq<Frag>, i: nat)
    requires i < |fs|
    ensures Total(fs) == Total(Without(fs, i)) + Amount(fs[i])
    decreases |fs|
  {
    var n := |fs| - 1;
    if i == n {
      assert Without(fs, i) == fs[..n];
    } else {
      TotalWithout(fs[..n], i);
      assert Without(fs, i)[..n - 1] == Without(fs[..n], i);
      assert Without(fs, i)[n - 1] == fs[n];
    }
  }

  // ----- reading a balance -----

  datatype BalanceError = Unavailable(why: StoreError) | Overdrawn | NotCounted

  method SpentIn(l: Ledger, key: ResourceKey) returns (n: nat)
    requires l.Valid()
    ensures n == Spent(l.View(), key)
  {
    hide LedgerState.Valid, UniqueIds;
    n := 0;
    for k := 0 to |l.holdings|
      invariant n == Total(LiveIn(l.holdings[..k], key))
    {
      assert l.holdings[..k + 1][..k] == l.holdings[..k];
      if Charges(l.holdings[k], key) {
        n := n + Amount(l.holdings[k].frag);
      }
    }
    assert l.holdings[..|l.holdings|] == l.holdings;
    VectorTotal(l, key);
  }

  lemma VectorTotal(l: Ledger, key: ResourceKey)
    requires l.Valid()
    ensures Total(LiveIn(l.holdings, key)) == Spent(l.View(), key)
  {
    hide LedgerState.Invariant, Total;
    LiveInMatches(l.holdings, key, l.nextId);
    TotalPermutes(LiveIn(l.holdings, key), LiveFrags(l.View(), key));
  }

  // `account` is the pool the account is bound to, if any.
  method CountBalance(store: LedgerStore, account: Option<ResourceKey>) returns (r: Result<Option<nat>, BalanceError>)
    requires store.Valid()
    modifies store`writable
    ensures store.Valid()
    ensures r.Err? ==> r.error != Overdrawn
    ensures r.Ok? ==> old(store.writable) && store.revision == store.db.revision
    ensures r.Ok? && account.None? ==> r == Ok(None)
    ensures r.Ok? && account.Some? ==>
              var s := store.ledger.View();
              CountedPool(s, account.value) && r == Ok(Some(Balance(s, account.value)))
  {
    var gate := store.BeginRead();
    if gate.Err? {
      return Err(Unavailable(gate.error));
    }
    if account.None? {
      return Ok(None);
    }
    var key := account.value;
    var l := store.ledger;
    if key !in l.capacities || !l.capacities[key].CountFrag? || !l.capacities[key].count.Value? {
      return Err(NotCounted);
    }
    NeverOverdrawn(l.View(), key);
    var spent := SpentIn(l, key);
    var cap := l.capacities[key].count.n;
    assert spent <= cap;
    return Ok(Some(cap - spent));
  }

  // ----- spending -----

  datatype Spend = Spend(key: ResourceKey, amount: U64)

  const SPEND_GENERATION: Name := "spend"

  function SpendOp(spend: Spend, spender: Name, now: Timestamp): Op {
    OpGrant(spend.key, GrantRequest(spender, CountFrag(Value(spend.amount)), SPEND_GENERATION, None, NoExpiry, now),
      AccountingOnly)
  }

  // A zero spend is no operation at all.
  function SpendOps(spends: seq<Spend>, spender: Name, now: Timestamp): seq<Op>
    decreases |spends|
  {
    if spends == [] then []
    else
      var rest := SpendOps(spends[1..], spender, now);
      if spends[0].amount == 0 then rest else [SpendOp(spends[0], spender, now)] + rest
  }

  function Demand(spends: seq<Spend>, key: ResourceKey): nat
    decreases |spends|
  {
    if spends == [] then 0 else (if spends[0].key == key then spends[0].amount else 0) + Demand(spends[1..], key)
  }

  // A counted pool of an accounting class, as create_count_pool makes them.
  predicate AccountPool(s: State, key: ResourceKey) {
    CountedPool(s, key) && key.classId in s.classes && s.classes[key.classId].cleanup.AccountingPolicy?
  }

  ghost predicate Payable(s: State, spends: seq<Spend>) {
    && (forall i {:trigger spends[i]} :: 0 <= i < |spends| ==> AccountPool(s, spends[i].key))
    && s.nextId + |spends| <= I64_MAX + 1
  }

  ghost predicate Affordable(s: State, spends: seq<Spend>) {
    forall k {:trigger Demand(spends, k)} :: CountedPool(s, k) ==> Demand(spends, k) <= Balance(s, k)
  }

  // The checks of a spend leave only the balance to decide.
  lemma SpendAdmitted(s: State, spend: Spend, spender: Name, now: Timestamp)
    requires Valid(s) && AccountPool(s, spend.key) && s.nextId <= I64_MAX
    ensures var op := SpendOp(spend, spender, now);
            && Fits(s.pools[spend.key], LiveFrags(s, spend.key) + [op.request.claim]) ==
                 (spend.amount <= Balance(s, spend.key))
            && Uniform(Counted, LiveFrags(s, spend.key) + [op.request.claim])
            && s.pools[spend.key].Tag() == Counted
  {
    hide RowsOk, Forest, RetirementsOk, TasksOk, NoTargetConflicts, KeysUnique, PoolsOk, Numbered;
    var live := LiveFrags(s, spend.key);
    NeverOverdrawn(s, spend.key);
    var all := live + [SpendOp(spend, spender, now).request.claim];
    assert all[..|all| - 1] == live;
    CountsFit(s.pools[spend.key].count.n, all);
  }

  lemma SpendStep(s: State, spend: Spend, spender: Name, now: Timestamp)
    requires AccountPool(s, spend.key) && s.nextId <= I64_MAX
    requires Uniform(Counted, LiveFrags(s, spend.key) + [SpendOp(spend, spender, now).request.claim])
    ensures var op := SpendOp(spend, spender, now);
            var step := Apply(s, op);
            && (step.result.Ok? <==> Fits(s.pools[spend.key], LiveFrags(s, spend.key) + [op.request.claim]))
            && var h := NewHolding(s.nextId, spend.key, op.request, Unbounded, AccountingOnly);
               (step.result.Ok? ==> step.state == SetRow(s, s.nextId, h).(nextId := s.nextId + 1))
  {
    hide Fits, Uniform, LiveFrags;
  }

  lemma SpendCharges(s: State, h: Holding, key: ResourceKey, n: U64)
    requires IdsBelow(s.holdings, s.nextId) && h.id == s.nextId && h.state.Active? && h.frag == CountFrag(Value(n))
    ensures var t := SetRow(s, h.id, h).(nextId := s.nextId + 1);
            Spent(t, key) == Spent(s, key) + (if h.Key() == key then n else 0)
  {
    var t := SetRow(s, h.id, h).(nextId := s.nextId + 1);
    LiveFrame(s.holdings, t.holdings, key, s.nextId);
    var live := LiveFrags(s, key);
    assert (live + [h.frag])[..|live|] == live;
  }

  // One spend is granted exactly when the balance covers it, and takes exactly that much.
  lemma SpendExact(s: State, spend: Spend, spender: Name, now: Timestamp)
    requires Valid(s) && AccountPool(s, spend.key) && s.nextId <= I64_MAX
    ensures var step := Apply(s, SpendOp(spend, spender, now));
            && (step.result.Ok? <==> spend.amount <= Balance(s, spend.key))
            && (step.result.Ok? ==>
                  && step.state.pools == s.pools && step.state.classes == s.classes && step.state.nextId == s.nextId + 1
                  && forall k :: CountedPool(s, k) ==>
                       Balance(step.state, k) == Balance(s, k) - (if k == spend.key then spend.amount else 0))
  {
    hide Invariant, Apply, Spent, Fits, Uniform, LiveFrags;
    SpendAdmitted(s, spend, spender, now);
    SpendStep(s, spend, spender, now);
    var op := SpendOp(spend, spender, now);
    if Apply(s, op).result.Ok? {
      forall k | CountedPool(s, k)
        ensures Balance(Apply(s, op).state, k) == Balance(s, k) - (if k == spend.key then spend.amount else 0)
      {
        SpendCharges(s, NewHolding(s.nextId, spend.key, op.request, Unbounded, AccountingOnly), k, spend.amount);
      }
    }
  }

  lemma AffordableStep(s: State, t: State, spends: seq<Spend>)
    requires Valid(s) && spends != [] && t.pools == s.pools
    requires forall k :: CountedPool(s, k) ==>
               Balance(t, k) == Balance(s, k) - (if k == spends[0].key then spends[0].amount else 0)
    ensures Affordable(s, spends) <==> Affordable(t, spends[1..])
  {
    if Affordable(t, spends[1..]) {
      forall k | CountedPool(s, k)
        ensures Demand(spends, k) <= Balance(s, k)
      {
        assert Demand(spends[1..], k) <= Balance(t, k);
      }
    }
    if Affordable(s, spends) {
      forall k | CountedPool(t, k)
        ensures Demand(spends[1..], k) <= Balance(t, k)
      {
        assert CountedPool(s, k);
        assert Demand(spends, k) <= Balance(s, k);
      }
    }
  }

  // A batch of spends succeeds exactly when every pool covers its whole demand, and then
  // each balance falls by exactly that demand.
  lemma {:induction false} SpendManyExact(s: State, spends: seq<Spend>, spender: Name, now: Timestamp)
    requires Valid(s) && Payable(s, spends)
    ensures var batch := Batch(s, SpendOps(spends, spender, now));
            && (batch.result.Ok? <==> Affordable(s, spends))
            && (batch.result.Ok? ==>
                  && Valid(batch.state) && batch.state.pools == s.pools
                  && forall k :: CountedPool(s, k) ==> Balance(batch.state, k) == Balance(s, k) - Demand(spends, k))
    decreases |spends|
  {
    hide Valid, Balance, SpendOp, Apply, Affordable;
    if spends == [] {
      NothingDemanded(s);
    } else {
      var rest := SpendOps(spends[1..], spender, now);
      assert AccountPool(s, spends[0].key);
      if spends[0].amount == 0 {
        AffordableStep(s, s, spends);
        PayableRest(s, s, spends);
        SpendManyExact(s, spends[1..], spender, now);
      } else {
        var op := SpendOp(spends[0], spender, now);
        assert ([op] + rest)[1..] == rest;
        SpendExact(s, spends[0], spender, now);
        var t := Apply(s, op).state;
        if Apply(s, op).result.Ok? {
          Runs.OpPreserves(s, op);
          AffordableStep(s, t, spends);
          PayableRest(s, t, spends);
          SpendManyExact(t, spends[1..], spender, now);
        } else {
          Unaffordable(s, spends);
        }
      }
    }
  }

  lemma NothingDemanded(s: State)
    requires Valid(s)
    ensures Affordable(s, [])
  {
    forall k | CountedPool(s, k)
      ensures Demand([], k) <= Balance(s, k)
    {
      NeverOverdrawn(s, k);
    }
  }

  lemma PayableRest(s: State, t: State, spends: seq<Spend>)
    requires Payable(s, spends) && spends != []
    requires t.pools == s.pools && t.classes == s.classes && t.nextId <= s.nextId + 1
    ensures Payable(t, spends[1..]) && (spends != [] ==> s.nextId <= I64_MAX)
  {
    forall i | 0 <= i < |spends[1..]|
      ensures AccountPool(t, spends[1..][i].key)
    {
      assert AccountPool(s, spends[i + 1].key);
    }
  }

  lemma Unaffordable(s: State, spends: seq<Spend>)
    requires spends != [] && CountedPool(s, spends[0].key) && Balance(s, spends[0].key) < spends[0].amount
    ensures !Affordable(s, spends)
  {
    assert Demand(spends, spends[0].key) >= spends[0].amount;
  }

  // The tables after the whole batch of spends.
  ghost predicate BatchStored(s: State, spends: seq<Spend>, spender: Name, now: Timestamp, tables: Tables) {
    && Batch(s, SpendOps(spends, spender, now)).result.Ok?
    && tables == Encode(Batch(s, SpendOps(spends, spender, now)).state)
  }

  // Spending through a store is all or nothing, whatever faults: the view moves only on success,
  // and the tables hold either nothing or all of the batch, the latter with an error only when a
  // failed commit had landed. Over account pools it succeeds only when every pool covers its
  // whole demand, and is refused only when one does not.
  method SpendMany(store: LedgerStore, spends: seq<Spend>, spender: Name, now: Timestamp, fault: Fault, identity: nat)
    returns (r: Result<(), StoreError>)
    requires store.Valid()
    modifies store, store.db
    ensures store.Valid()
    ensures r.Err? ==> store.ledger.View() == old(store.ledger.View())
    ensures r.Err? && !(r.error.CommitFailed? && fault.CommitFails? && fault.landed) ==>
              store.db.tables == old(store.db.tables)
    ensures r.Err? && store.db.tables != old(store.db.tables) ==>
              BatchStored(old(store.ledger.View()), spends, spender, now, store.db.tables) && !store.writable
    ensures r.Ok? ==>
              && BatchStored(old(store.ledger.View()), spends, spender, now, store.db.tables)
              && store.db.tables == Encode(store.ledger.View())
    ensures r.Ok? && Payable(old(store.ledger.View()), spends) ==>
              && Affordable(old(store.ledger.View()), spends)
              && forall k :: CountedPool(old(store.ledger.View()), k) ==>
                   && CountedPool(store.ledger.View(), k)
                   && Balance(store.ledger.View(), k) == Balance(old(store.ledger.View()), k) - Demand(spends, k)
    ensures r == Err(Refused) && Payable(old(store.ledger.View()), spends) ==>
              !Affordable(old(store.ledger.View()), spends)
  {
    hide LedgerState.Valid, Balance, Affordable, Payable, SpendOps, Batch, Persistence.Upserted, Encode;
    ghost var s := store.ledger.View();
    var ops := SpendOps(spends, spender, now);
    if Payable(s, spends) {
      SpendManyExact(s, spends, spender, now);
    }
    r := store.Transaction(ops, fault, identity);
    ghost var snap :|
      Transact(old(store.Stored()), old(store.Shown()), ops, snap, fault, store.Stored(), store.Shown(), r);
    if store.db.tables != old(store.db.tables) {
      BatchPreserves(s, ops);
      PersistRefinesOverwrite(s, Batch(s, ops).state, snap);
    }
  }

  // ----- handing over everything an owner holds -----

  predicate Owned(h: Holding, owner: Name) {
    h.state.Active? && h.subject == owner
  }

  function Handed(hs: Rows, owner: Name, to: Name): Rows {
    map id | id in hs :: if Owned(hs[id], owner) then hs[id].(subject := to) else hs[id]
  }

  // Every active holding of `owner`, and nothing else, changes hands.
  method TransferAll(l: Ledger, owner: Name, to: Name) returns (n: nat)
    requires l.Valid()
    modifies l
    ensures l.Valid() && l.identity == old(l.identity)
    ensures l.View() == old(l.View()).(holdings := Handed(old(l.View().holdings), owner, to))
    ensures var hs := old(l.View().holdings);
            n == |set id | id in hs && hs[id].state == Active && hs[id].subject == owner|
  {
    hide LedgerState.Valid, UniqueIds;
    ghost var s := l.View();
    var vec := l.holdings;
    var handles := OwnedRefs(vec, owner);
    for k := 0 to |handles|
      invariant l.Valid() && l.identity == old(l.identity)
      invariant l.View() == PartHanded(s, handles[..k], to)
    {
      HandOne(s, handles, k, owner, to);
      var r := l.Transfer(handles[k], owner, to);
    }
    AllHanded(s, handles, owner, to);
    n := |handles|;
    assert (set id | id in s.holdings && s.holdings[id].state == Active && s.holdings[id].subject == owner) ==
           (set id | id in s.holdings && Owned(s.holdings[id], owner));
  }

  function HandleIds(handles: seq<Handle>): set<nat> {
    set i | 0 <= i < |handles| :: handles[i].id
  }

  ghost function PartHanded(s: State, handles: seq<Handle>, to: Name): State {
    s.(holdings := map id | id in s.holdings ::
      if id in HandleIds(handles) then s.holdings[id].(subject := to) else s.holdings[id])
  }

  ghost predicate OwnedListed(hs: Rows, owner: Name, handles: seq<Handle>) {
    && (forall i {:trigger handles[i]} :: 0 <= i < |handles| ==>
          && handles[i].id in hs && Owned(hs[handles[i].id], owner) && handles[i] == hs[handles[i].id].Ref())
    && (forall i, j :: 0 <= i < j < |handles| ==> handles[i].id != handles[j].id)
    && (forall id :: id in hs && Owned(hs[id], owner) ==> id in HandleIds(handles))
  }

  predicate OwnedBefore(vec: seq<Holding>, n: nat, owner: Name, r: Handle)
    requires n <= |vec|
  {
    exists j :: 0 <= j < n && vec[j].Ref() == r && Owned(vec[j], owner)
  }

  method OwnedRefs(vec: seq<Holding>, owner: Name) returns (handles: seq<Handle>)
    requires UniqueIds(vec)
    ensures OwnedListed(RowsOf(vec), owner, handles)
  {
    handles := [];
    for k := 0 to |vec|
      invariant forall i {:trigger handles[i]} :: 0 <= i < |handles| ==> OwnedBefore(vec, k, owner, handles[i])
      invariant forall i, j :: 0 <= i < j < |handles| ==> handles[i].id != handles[j].id
      invariant forall j :: 0 <= j < k && Owned(vec[j], owner) ==> vec[j].id in HandleIds(handles)
    {
      if Owned(vec[k], owner) {
        IdNotBefore(vec, k);
        ghost var before := handles;
        handles := handles + [vec[k].Ref()];
        assert handles[|before|].id == vec[k].id && OwnedBefore(vec, k + 1, owner, handles[|before|]);
        assert forall i :: 0 <= i < |before| ==> handles[i] == before[i];
      }
    }
  }

  lemma HandOne(s: State, handles: seq<Handle>, k: nat, owner: Name, to: Name)
    requires k < |handles| && OwnedListed(s.holdings, owner, handles)
    ensures var step := Transfer(PartHanded(s, handles[..k], to), handles[k], owner, to);
            step.result.Ok? && step.state == PartHanded(s, handles[..k + 1], to)
  {
    assert handles[..k + 1] == handles[..k] + [handles[k]];
    var id := handles[k].id;
    assert id !in HandleIds(handles[..k]);
    assert HandleIds(handles[..k + 1]) == HandleIds(handles[..k]) + {id} by {
      assert handles[..k + 1][k].id == id;
      forall x | x in HandleIds(handles[..k])
        ensures x in HandleIds(handles[..k + 1])
      {
        var i :| 0 <= i < k && handles[..k][i].id == x;
        assert handles[..k + 1][i].id == x;
      }
    }
    assert Transfer(PartHanded(s, handles[..k], to), handles[k], owner, to).state.holdings ==
             PartHanded(s, handles[..k + 1], to).holdings;
  }

  lemma AllHanded(s: State, handles: seq<Handle>, owner: Name, to: Name)
    requires OwnedListed(s.holdings, owner, handles)
    ensures PartHanded(s, handles[..|handles|], to) == s.(holdings := Handed(s.holdings, owner, to))
    ensures |handles| == |set id | id in s.holdings && Owned(s.holdings[id], owner)|
  {
    assert handles[..|handles|] == handles;
    var ids := set id | id in s.holdings && Owned(s.holdings[id], owner);
    assert HandleIds(handles) == ids;
    HandleCount(handles);
  }

  lemma {:induction false} HandleCount(handles: seq<Handle>)
    requires forall i, j :: 0 <= i < j < |handles| ==> handles[i].id != handles[j].id
    ensures |HandleIds(handles)| == |handles|
    decreases |handles|
  {
    if handles == [] {
      assert HandleIds(handles) == {};
    } else {
      var n := |handles| - 1;
      HandleCount(handles[..n]);
      assert HandleIds(handles) == HandleIds(handles[..n]) + {handles[n].id};
    }
  }
}
