// Several stores over one database: every interleaving of transactions, reads and opens.

module StoreProtocol {
  import opened Prelude
  import opened LedgerTypes
  import opened LedgerState
  import opened LedgerOps
  import opened LedgerInvariant
  import opened LedgerRows
  import opened LedgerBuild
  import opened Persistence
  import Runs = LedgerRuns

  datatype Db = Db(tables: Tables, revision: nat)

  // One store: the view it last published, whether it may write, and that view's revision.
  datatype StoreView = StoreView(ledger: State, writable: bool, revision: nat)

  // A failed commit may or may not have reached the disk.
  datatype Fault = NoFault | RollbackFails | CommitFails(landed: bool)

  datatype StoreError = RecoveryRequired | StaleView | RevisionExhausted | Refused | CommitFailed

  // The body of a transaction: operations in order, stopping at the first refusal.
  ghost function Batch(s: State, ops: seq<Op>): Step<()>
    decreases |ops|
  {
    if ops == [] then Step(s, Ok(()))
    else
      var first := Apply(s, ops[0]);
      match first.result
      case Err(e) => Step(s, Err(e))
      case Ok(_) => Batch(first.state, ops[1..])
  }

  lemma {:induction false} BatchPreserves(s: State, ops: seq<Op>)
    requires Valid(s)
    ensures Batch(s, ops).result.Ok? ==> Valid(Batch(s, ops).state) && Evolves(s, Batch(s, ops).state)
    decreases |ops|
  {
    hide Valid, Evolves, Apply;
    if ops == [] {
      EvolvesReflexive(s);
    } else {
      Runs.OpPreserves(s, ops[0]);
      BatchPreserves(Apply(s, ops[0]).state, ops[1..]);
      if Batch(s, ops).result.Ok? {
        EvolvesTransitive(s, Apply(s, ops[0]).state, Batch(s, ops).state);
      }
    }
  }

  // ----- one transaction, one read, one open -----

  ghost predicate Transact(db: Db, v: StoreView, ops: seq<Op>, snap: Snapshot, fault: Fault,
                           db': Db, v': StoreView, result: Result<(), StoreError>) {
    if !v.writable then db' == db && v' == v && result == Err(RecoveryRequired)
    else if db.revision != v.revision then db' == db && v' == v.(writable := false) && result == Err(StaleView)
    else if db.revision + 1 > I64_MAX then db' == db && v' == v && result == Err(RevisionExhausted)
    else
      var body := Batch(v.ledger, ops);
      match body.result
      case Err(_) => db' == db && v' == v.(writable := !fault.RollbackFails?) && result == Err(Refused)
      case Ok(_) =>
        && Acceptable(snap) && StateOf(snap) == body.state
        && var next := Db(Upserted(db.tables, snap), db.revision + 1);
           if fault.CommitFails? then
             db' == (if fault.landed then next else db) && v' == v.(writable := false) && result == Err(CommitFailed)
           else
             db' == next && v' == StoreView(body.state, true, db.revision + 1) && result == Ok(())
  }

  ghost predicate Read(db: Db, v: StoreView, v': StoreView, result: Result<State, StoreError>) {
    if !v.writable then v' == v && result == Err(RecoveryRequired)
    else if db.revision != v.revision then v' == v.(writable := false) && result == Err(StaleView)
    else v' == v && result == Ok(v.ledger)
  }

  // Opening decodes and checks the stored tables.
  ghost predicate Opened(db: Db, v: StoreView) {
    && Valid(v.ledger) && Decodable(db.tables) && DecodedRows(db.tables) == v.ledger.holdings
    && db.tables.classes == v.ledger.classes && db.tables.pools == v.ledger.pools
    && db.tables.instantiations == v.ledger.instantiations && db.tables.cleanups == v.ledger.cleanups
    && v.writable && v.revision == db.revision
  }

  datatype World = World(db: Db, stores: seq<StoreView>)

  datatype Event =
    | TxEvent(store: nat, ops: seq<Op>, snap: Snapshot, fault: Fault, outcome: Result<(), StoreError>)
    | ReadEvent(store: nat, seen: Result<State, StoreError>)
    | OpenEvent(view: StoreView)

  ghost predicate Next(w: World, e: Event, w': World) {
    match e
    case TxEvent(i, ops, snap, fault, outcome) =>
      && i < |w.stores| && |w'.stores| == |w.stores|
      && w'.stores == w.stores[i := w'.stores[i]]
      && Transact(w.db, w.stores[i], ops, snap, fault, w'.db, w'.stores[i], outcome)
    case ReadEvent(i, seen) =>
      && i < |w.stores| && |w'.stores| == |w.stores| && w'.db == w.db
      && w'.stores == w.stores[i := w'.stores[i]]
      && Read(w.db, w.stores[i], w'.stores[i], seen)
    case OpenEvent(v) =>
      && w'.db == w.db && w'.stores == w.stores + [v] && Opened(w.db, v)
  }

  // ----- one linear history -----

  // Each entry is the state committed at that revision, computed from its predecessor.
  ghost predicate Committed(h: seq<State>, k: nat)
    requires k + 1 < |h|
  {
    exists ops: seq<Op> :: Batch(h[k], ops).result.Ok? && Batch(h[k], ops).state == h[k + 1]
  }

  ghost predicate ViewAt(h: seq<State>, base: nat, v: StoreView) {
    base <= v.revision < base + |h| && v.ledger == h[v.revision - base]
  }

  ghost predicate Linear(w: World, h: seq<State>, base: nat) {
    && h != []
    && (forall k {:trigger h[k]} :: 0 <= k < |h| ==> Valid(h[k]))
    && (forall k: nat {:trigger Committed(h, k)} :: k + 1 < |h| ==> Committed(h, k))
    && w.db == Db(Encode(h[|h| - 1]), base + |h| - 1)
    && (forall i {:trigger w.stores[i]} :: 0 <= i < |w.stores| ==> ViewAt(h, base, w.stores[i]))
  }

  lemma HistoryGrows(w: World, h: seq<State>, base: nat, ops: seq<Op>, snap: Snapshot)
    requires Linear(w, h, base)
    requires Batch(h[|h| - 1], ops).result.Ok? && Acceptable(snap) && StateOf(snap) == Batch(h[|h| - 1], ops).state
    ensures var t := Batch(h[|h| - 1], ops).state;
            Linear(World(Db(Upserted(w.db.tables, snap), w.db.revision + 1), w.stores), h + [t], base)
  {
    var s, t := h[|h| - 1], Batch(h[|h| - 1], ops).state;
    var h' := h + [t];
    hide Batch, Acceptable, Upserted, Encode, LedgerState.Valid, StateOf;
    BatchPreserves(s, ops);
    PersistRefinesOverwrite(s, t, snap);
    forall k: nat | k + 1 < |h'|
      ensures Committed(h', k)
    {
      if k + 1 < |h| {
        assert Committed(h, k);
        var o: seq<Op> :| Batch(h[k], o).result.Ok? && Batch(h[k], o).state == h[k + 1];
        assert Batch(h'[k], o).state == h'[k + 1];
      } else {
        assert h'[k] == s && h'[k + 1] == t;
        assert Batch(h'[k], ops).result.Ok? && Batch(h'[k], ops).state == h'[k + 1];
      }
    }
    forall i | 0 <= i < |w.stores|
      ensures ViewAt(h', base, w.stores[i])
    {
      assert ViewAt(h, base, w.stores[i]);
    }
  }

  lemma OpenedAtHead(w: World, h: seq<State>, base: nat, v: StoreView)
    requires Linear(w, h, base) && Opened(w.db, v)
    ensures ViewAt(h, base, v)
  {
    var s := h[|h| - 1];
    EncodedDecodable(s);
    assert Encode(v.ledger) == Encode(s) by {
      assert v.ledger.holdings == s.holdings;
    }
    EncodeInjective(v.ledger, s);
  }

  // The history after one event: unchanged, or extended by the state one batch of
  // operations computes from the last committed state.
  lemma StepLinear(w: World, e: Event, w': World, h: seq<State>, base: nat) returns (h': seq<State>)
    requires Linear(w, h, base) && Next(w, e, w')
    ensures Linear(w', h', base)
    ensures h' == h || (e.TxEvent? && h' == h + [Batch(h[|h| - 1], e.ops).state])
    ensures e.TxEvent? && e.outcome.Ok? ==> h' == h + [Batch(h[|h| - 1], e.ops).state]
  {
    h' := h;
    hide LedgerState.Valid, Committed, Batch, Upserted, Encode, Acceptable;
    match e {
      case TxEvent(i, ops, snap, fault, outcome) =>
        assert ViewAt(h, base, w.stores[i]);
        if w'.db != w.db {
          HistoryGrows(w, h, base, ops, snap);
          h' := h + [Batch(h[|h| - 1], ops).state];
          StoresMove(World(w'.db, w.stores), w', h', base, i);
        } else {
          CommitMovesRevision(w, i, ops, snap, fault, w', outcome);
          StoresMove(w, w', h, base, i);
        }
      case ReadEvent(i, seen) =>
        assert ViewAt(h, base, w.stores[i]);
        StoresMove(w, w', h, base, i);
      case OpenEvent(v) =>
        OpenedAtHead(w, h, base, v);
        forall k | 0 <= k < |w'.stores|
          ensures ViewAt(h, base, w'.stores[k])
        {
          assert w'.stores[k] == if k < |w.stores| then w.stores[k] else v;
        }
    }
  }

  // A transaction that leaves the database alone keeps the store's view.
  lemma CommitMovesRevision(w: World, i: nat, ops: seq<Op>, snap: Snapshot, fault: Fault, w': World,
                            outcome: Result<(), StoreError>)
    requires i < |w.stores| && i < |w'.stores| && w'.db == w.db
    requires Transact(w.db, w.stores[i], ops, snap, fault, w'.db, w'.stores[i], outcome)
    ensures w'.stores[i].ledger == w.stores[i].ledger && w'.stores[i].revision == w.stores[i].revision
    ensures outcome.Err?
  {
  }

  lemma StoresMove(w: World, w': World, h: seq<State>, base: nat, i: nat)
    requires Linear(w, h, base) && w'.db == w.db && i < |w.stores| && |w'.stores| == |w.stores|
    requires w'.stores == w.stores[i := w'.stores[i]] && ViewAt(h, base, w'.stores[i])
    ensures Linear(w', h, base)
  {
    forall k | 0 <= k < |w'.stores|
      ensures ViewAt(h, base, w'.stores[k])
    {
      assert k != i ==> w'.stores[k] == w.stores[k];
    }
  }

  ghost predicate IsRun(worlds: seq<World>, events: seq<Event>) {
    && |worlds| == |events| + 1
    && forall k {:trigger events[k]} :: 0 <= k < |events| ==> Next(worlds[k], events[k], worlds[k + 1])
  }

  // Whatever the stores do, in whatever order, the commits form one linear history.
  lemma {:induction false} RunLinear(worlds: seq<World>, events: seq<Event>, s: State, base: nat)
    returns (h: seq<State>)
    requires IsRun(worlds, events)
    requires Valid(s) && worlds[0] == World(Db(Encode(s), base), [])
    ensures Linear(worlds[|worlds| - 1], h, base) && h[0] == s
    decreases |events|
  {
    if events == [] {
      h := [s];
    } else {
      var n := |events| - 1;
      var front := events[..n];
      forall k | 0 <= k < |front|
        ensures Next(worlds[..n + 1][k], front[k], worlds[..n + 1][k + 1])
      {
        assert front[k] == events[k];
      }
      h := RunLinear(worlds[..n + 1], front, s, base);
      assert Next(worlds[n], events[n], worlds[n + 1]);
      h := StepLinear(worlds[n], events[n], worlds[n + 1], h, base);
    }
  }

  // ----- what each answer tells -----

  // A transaction answers by its first obstacle: a latched store, a view that is behind, the last
  // revision, a refused operation, a failed commit. Only a failed commit that landed, or a success,
  // moves the database, and only a success moves the view.
  lemma TransactAnswers(db: Db, v: StoreView, ops: seq<Op>, snap: Snapshot, fault: Fault, db': Db, v': StoreView,
                        r: Result<(), StoreError>)
    requires Transact(db, v, ops, snap, fault, db', v', r)
    ensures r == Err(RecoveryRequired) <==> !v.writable
    ensures r == Err(StaleView) <==> v.writable && db.revision != v.revision
    ensures r == Err(RevisionExhausted) <==> v.writable && db.revision == v.revision && v.revision >= I64_MAX
    ensures r == Err(Refused) <==>
              v.writable && db.revision == v.revision && v.revision < I64_MAX && Batch(v.ledger, ops).result.Err?
    ensures r == Err(CommitFailed) <==>
              v.writable && db.revision == v.revision && v.revision < I64_MAX && Batch(v.ledger, ops).result.Ok? &&
              fault.CommitFails?
    ensures r.Err? ==> v'.ledger == v.ledger && v'.revision == v.revision
    ensures r.Err? && !(r.error.CommitFailed? && fault.landed) ==> db' == db
    ensures r.Ok? || (r.error.CommitFailed? && fault.landed) ==>
              db' == Db(Upserted(db.tables, snap), db.revision + 1) && Listed(snap) == Some(Batch(v.ledger, ops).state)
    ensures r.Ok? ==> v' == StoreView(Batch(v.ledger, ops).state, true, db'.revision)
    ensures r.Err? && (r.error.StaleView? || r.error.CommitFailed? || (r.error.Refused? && fault.RollbackFails?)) ==>
              !v'.writable
    ensures r.Err? && (r.error.RevisionExhausted? || (r.error.Refused? && !fault.RollbackFails?)) ==> v' == v
  {
  }

  ghost function Listed(snap: Snapshot): Option<State> {
    if UniqueIds(snap.holdings) then Some(StateOf(snap)) else None
  }

  // The store whose view a failure has latched.
  predicate Latched(w: World, i: nat) {
    i < |w.stores| && !w.stores[i].writable
  }

  lemma LatchedStep(w: World, e: Event, w': World, i: nat)
    requires Next(w, e, w') && Latched(w, i)
    ensures Latched(w', i)
    ensures e.TxEvent? && e.store == i ==> e.outcome == Err(RecoveryRequired) && w' == w
    ensures e.ReadEvent? && e.store == i ==> e.seen == Err(RecoveryRequired) && w' == w
  {
    if e.TxEvent? && e.store == i {
      assert w'.stores == w.stores;
    }
    if e.ReadEvent? && e.store == i {
      assert w'.stores == w.stores;
    }
  }

  lemma {:induction false} LatchedStays(worlds: seq<World>, events: seq<Event>, i: nat, j: nat, k: nat)
    requires IsRun(worlds, events) && j <= k < |worlds| && Latched(worlds[j], i)
    ensures Latched(worlds[k], i)
    decreases k
  {
    hide Next, Latched;
    if j < k {
      LatchedStays(worlds, events, i, j, k - 1);
      assert Next(worlds[k - 1], events[k - 1], worlds[k]);
      LatchedStep(worlds[k - 1], events[k - 1], worlds[k], i);
    }
  }

  // A store that was behind, failed to commit or failed to roll back neither reads nor writes ever
  // again, whatever happens in between: it has to be opened anew.
  lemma LatchedForever(worlds: seq<World>, events: seq<Event>, i: nat, j: nat, k: nat)
    requires IsRun(worlds, events) && j <= k < |events| && Latched(worlds[j], i)
    ensures events[k].TxEvent? && events[k].store == i ==>
              events[k].outcome == Err(RecoveryRequired) && worlds[k + 1] == worlds[k]
    ensures events[k].ReadEvent? && events[k].store == i ==>
              events[k].seen == Err(RecoveryRequired) && worlds[k + 1] == worlds[k]
  {
    hide Next, Latched;
    LatchedStays(worlds, events, i, j, k);
    assert Next(worlds[k], events[k], worlds[k + 1]);
    LatchedStep(worlds[k], events[k], worlds[k + 1], i);
  }

  // A read that shows anything shows the last commit of all, whoever made it; it answers exactly for
  // a store that is not latched and not behind, and one that is behind is latched by asking.
  lemma ReadIsCurrent(w: World, h: seq<State>, base: nat, i: nat, v': StoreView, r: Result<State, StoreError>)
    requires Linear(w, h, base) && i < |w.stores| && Read(w.db, w.stores[i], v', r)
    ensures r.Ok? ==> r.value == h[|h| - 1] && v' == w.stores[i]
    ensures r.Ok? <==> w.stores[i].writable && w.stores[i].revision == w.db.revision
    ensures r == Err(StaleView) <==> w.stores[i].writable && w.stores[i].revision != w.db.revision
    ensures r.Err? ==> !v'.writable && v'.ledger == w.stores[i].ledger && v'.revision == w.stores[i].revision
  {
    assert ViewAt(h, base, w.stores[i]);
  }

  // A writable store at the stored revision holds exactly the stored snapshot; a store
  // that is behind can neither read nor commit.
  lemma MatchingViewIsExact(w: World, h: seq<State>, base: nat, i: nat)
    requires Linear(w, h, base) && i < |w.stores|
    ensures w.stores[i].revision == w.db.revision ==>
              w.db.tables == Encode(w.stores[i].ledger) && Opened(w.db, w.stores[i].(writable := true))
    ensures w.stores[i].revision != w.db.revision ==>
              forall ops, snap, fault, db', v', r :: Transact(w.db, w.stores[i], ops, snap, fault, db', v', r) ==>
                db' == w.db && r.Err? && !v'.writable
  {
    assert ViewAt(h, base, w.stores[i]);
    if w.stores[i].revision == w.db.revision {
      EncodedDecodable(h[|h| - 1]);
    }
  }
}
