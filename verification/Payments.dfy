// What a batch of spends and a transfer of ownership leave in the rows.

module Payments {
  import opened Prelude
  import opened Algebra
  import opened LedgerTypes
  import opened LedgerState
  import opened LedgerOps
  import opened LedgerInvariant
  import opened StoreProtocol
  import opened Accounts
  import opened LedgerMeaning
  import Runs = LedgerRuns

  // The spends that cost something.
  function Costly(spends: seq<Spend>): seq<Spend> {
    if spends == [] then [] else (if spends[0].amount == 0 then [] else [spends[0]]) + Costly(spends[1..])
  }

  // A receipt: an active claim of the spender on the pool, without parent, lease or obligation.
  predicate Receipt(h: Holding, spend: Spend, spender: Name, now: Timestamp) {
    && h.subject == spender && h.classId == spend.key.classId && h.instance == spend.key.instance
    && h.frag == CountFrag(Value(spend.amount)) && h.state == Active && h.lease == Unbounded
    && h.parent == None && h.target == AccountingOnly && h.acquiredAt == now
  }

  // New rows under the next `n` ids, and nothing else.
  ghost predicate Added(s: State, t: State, n: nat) {
    && t.nextId == s.nextId + n
    && t == s.(holdings := t.holdings, nextId := t.nextId)
    && (forall id :: id in t.holdings <==> id in s.holdings || s.nextId <= id < s.nextId + n)
    && (forall id {:trigger t.holdings[id]} :: id in s.holdings ==> t.holdings[id] == s.holdings[id])
  }

  predicate PaidAt(t: State, id: nat, spend: Spend, spender: Name, now: Timestamp) {
    id in t.holdings && t.holdings[id].id == id && Receipt(t.holdings[id], spend, spender, now)
  }

  // A batch that goes through adds one receipt for each spend that costs something, in order under
  // the next ids, and changes nothing else.
  ghost predicate Receipts(s: State, t: State, spends: seq<Spend>, spender: Name, now: Timestamp) {
    var paid := Costly(spends);
    && Added(s, t, |paid|)
    && forall j {:trigger paid[j]} :: 0 <= j < |paid| ==> PaidAt(t, s.nextId + j, paid[j], spender, now)
  }

  lemma OneReceipt(s: State, spend: Spend, spender: Name, now: Timestamp)
    requires Valid(s) && Apply(s, SpendOp(spend, spender, now)).result.Ok?
    ensures var t := Apply(s, SpendOp(spend, spender, now)).state;
            Added(s, t, 1) && PaidAt(t, s.nextId, spend, spender, now)
  {
    hide Valid, Grant, GrantRefusal;
    var op := SpendOp(spend, spender, now);
    assert op.OpGrant? && op.key == spend.key && op.target == AccountingOnly;
    GrantExact(s, op.key, op.request, op.target);
  }

  lemma {:induction false} BatchReceipts(s: State, spends: seq<Spend>, spender: Name, now: Timestamp)
    requires Valid(s) && Batch(s, SpendOps(spends, spender, now)).result.Ok?
    ensures Receipts(s, Batch(s, SpendOps(spends, spender, now)).state, spends, spender, now)
    decreases |spends|
  {
    hide Valid, SpendOp, Apply, PaidAt, Added, Evolves;
    if spends == [] {
      NoneAdded(s);
    } else {
      var rest := SpendOps(spends[1..], spender, now);
      if spends[0].amount == 0 {
        BatchReceipts(s, spends[1..], spender, now);
        NoReceipt(s, Batch(s, rest).state, spends, spender, now);
      } else {
        var op := SpendOp(spends[0], spender, now);
        assert ([op] + rest)[1..] == rest;
        OneReceipt(s, spends[0], spender, now);
        var t := Apply(s, op).state;
        Runs.OpPreserves(s, op);
        BatchReceipts(t, spends[1..], spender, now);
        FirstReceipt(s, t, Batch(t, rest).state, spends, spender, now);
      }
    }
  }

  lemma NoneAdded(s: State)
    ensures Added(s, s, 0)
  {
  }

  lemma NoReceipt(s: State, t: State, spends: seq<Spend>, spender: Name, now: Timestamp)
    requires spends != [] && spends[0].amount == 0 && Receipts(s, t, spends[1..], spender, now)
    ensures Receipts(s, t, spends, spender, now)
  {
    hide PaidAt, Added;
    assert Costly(spends) == Costly(spends[1..]);
  }

  lemma AddedOne(s: State, t: State, u: State, n: nat)
    requires Added(s, t, 1) && Added(t, u, n)
    ensures Added(s, u, n + 1)
    ensures s.nextId in t.holdings && s.nextId in u.holdings && u.holdings[s.nextId] == t.holdings[s.nextId]
  {
    assert s.nextId in t.holdings;
    forall id | id in s.holdings
      ensures u.holdings[id] == s.holdings[id]
    {
      assert t.holdings[id] == s.holdings[id];
    }
  }

  lemma FirstReceipt(s: State, t: State, u: State, spends: seq<Spend>, spender: Name, now: Timestamp)
    requires spends != [] && spends[0].amount != 0 && Receipts(t, u, spends[1..], spender, now)
    requires Added(s, t, 1) && PaidAt(t, s.nextId, spends[0], spender, now)
    ensures Receipts(s, u, spends, spender, now)
  {
    hide Receipt, Added;
    var paid, rest := Costly(spends), Costly(spends[1..]);
    assert paid == [spends[0]] + rest;
    AddedOne(s, t, u, |rest|);
    assert t.nextId == s.nextId + 1 by { AddedNext(s, t, 1); }
    forall j | 0 <= j < |paid|
      ensures PaidAt(u, s.nextId + j, paid[j], spender, now)
    {
      if j > 0 {
        assert paid[j] == rest[j - 1];
        assert t.nextId + (j - 1) == s.nextId + j;
      }
    }
  }

  lemma AddedNext(s: State, t: State, n: nat)
    requires Added(s, t, n)
    ensures t.nextId == s.nextId + n
  {
  }

  // Handing over: every active row of the owner goes to the new one, retiring and retired rows and
  // the rows of others stay.
  lemma HandedExact(hs: Rows, owner: Name, to: Name)
    ensures Handed(hs, owner, to).Keys == hs.Keys
    ensures forall id :: id in hs ==>
              Handed(hs, owner, to)[id] ==
                if hs[id].state == Active && hs[id].subject == owner then hs[id].(subject := to) else hs[id]
    ensures to != owner ==>
              forall id :: id in hs && hs[id].state == Active ==> Handed(hs, owner, to)[id].subject != owner
  {
  }
}
