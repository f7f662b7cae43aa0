// The end of a run, the release of its withheld batch under fresh consent, and the order in
// which the world sees the effects.

module Approval {
  import opened Prelude
  import opened PlanShapes
  import opened PlanIr
  import opened PlanCheck
  import opened PlanSemantics
  import opened PlanFrames
  import opened PlanRuns
  import opened PlanLogs
  import opened PlanBudget
  import opened PlanFunds
  import opened PlanStart
  import opened Interpreter
  import A = PlanAdmission
  import N = PlanAnnotations
  import L = PlanLabels
  import R = PlanReach
  import P = Protocol

  datatype BufferState = Held | Inserted | Dropped

  datatype Row = Row(item: Buffered, state: BufferState)

  datatype End = Completed | Failed(outcome: Outcome) | ReleaseFailed(verb: VerbId)
  datatype Phase = Running | AwaitingApproval | Done(end: End)

  datatype ApproveError =
    | NotAwaiting
    | OriginalExpired
    | NotConsented(why: ConsentError)
    | Short(verb: VerbId)
    | ReleaseStopped(verb: VerbId)

  function HeldItems(rows: seq<Row>): seq<Buffered> {
    if rows == [] then []
    else
      var rest, last := HeldItems(rows[..|rows| - 1]), rows[|rows| - 1];
      if last.state.Held? then rest + [last.item] else rest
  }

  predicate NumberedRows(rows: seq<Row>) {
    forall i :: 0 <= i < |rows| ==> rows[i].item.num == i + 1
  }

  function Moved(rows: seq<Row>, before: BufferState, after: BufferState): (r: seq<Row>)
    ensures |r| == |rows|
    ensures forall i :: 0 <= i < |rows| ==>
              r[i] == if rows[i].state == before then rows[i].(state := after) else rows[i]
  {
    seq(|rows|, i requires 0 <= i < |rows| => if rows[i].state == before then rows[i].(state := after) else rows[i])
  }

  // ----- releasing a batch -----

  datatype Released = Released(grants: seq<Grant>, calls: nat, log: seq<Emission>, done: nat, ok: bool)

  // Item by item in order; the first failure stops the batch.
  function ReleaseAll(cfg: Config, from: Released, batch: seq<Buffered>, nonce: Name): Released {
    if batch == [] then from
    else
      var r := ReleaseAll(cfg, from, batch[..|batch| - 1], nonce);
      if r.ok then ReleaseOne(cfg, r, batch[|batch| - 1], nonce) else r
  }

  function ReleaseOne(cfg: Config, r: Released, item: Buffered, nonce: Name): Released {
    match Exercise(cfg, r.calls, r.grants, item.verb, 0, NoCapability)
    case Open(g) =>
      (match cfg.world(r.calls, item.verb, item.args)
       case Returned(_) =>
         Released(g, r.calls + 1, r.log + [Emission(|r.log| + 1, item.verb, item.target, nonce)], r.done + 1, true)
       case Broke => r.(grants := g, calls := r.calls + 1, ok := false))
    case _ => r.(calls := r.calls + 1, ok := false)
  }

  // The log grows by exactly the released prefix of the batch, in order.
  ghost predicate ReleasedPrefix(from: Released, r: Released, batch: seq<Buffered>) {
    && r.done <= |batch| && (r.ok <==> r.done == |batch|)
    && |r.log| == |from.log| + r.done && from.log <= r.log
    && LogVerbs(r.log) == LogVerbs(from.log) + BufferVerbs(batch[..r.done])
    && (NumberedLog(from.log) ==> NumberedLog(r.log))
  }

  lemma {:induction false} ReleaseLog(cfg: Config, from: Released, batch: seq<Buffered>, nonce: Name)
    requires from.ok && from.done == 0
    ensures ReleasedPrefix(from, ReleaseAll(cfg, from, batch, nonce), batch)
  {
    hide Exercise;
    if batch == [] {
      assert batch[..0] == [];
    } else {
      var n := |batch| - 1;
      ReleaseLog(cfg, from, batch[..n], nonce);
      ReleaseStep(cfg, from, ReleaseAll(cfg, from, batch[..n], nonce), batch, nonce);
    }
  }

  lemma ReleaseStep(cfg: Config, from: Released, front: Released, batch: seq<Buffered>, nonce: Name)
    requires batch != [] && ReleasedPrefix(from, front, batch[..|batch| - 1])
    ensures ReleasedPrefix(from, if front.ok then ReleaseOne(cfg, front, batch[|batch| - 1], nonce) else front, batch)
  {
    hide Exercise;
    var n := |batch| - 1;
    var r := if front.ok then ReleaseOne(cfg, front, batch[n], nonce) else front;
    assert batch[..n][..front.done] == batch[..front.done];
    if r.ok {
      assert batch[..|batch|] == batch;
      assert r.log[..|r.log| - 1] == front.log;
    } else {
      assert r.log == front.log && r.done == front.done;
    }
  }

  // Each released entry carries its item's verb and target and the approving nonce.
  predicate EntryFor(from: Released, r: Released, batch: seq<Buffered>, nonce: Name, k: nat) {
    && k < |batch| && |from.log| + k < |r.log|
    && r.log[|from.log| + k] == Emission(|from.log| + k + 1, batch[k].verb, batch[k].target, nonce)
  }

  lemma {:induction false} ReleaseEntries(cfg: Config, from: Released, batch: seq<Buffered>, nonce: Name, k: nat)
    requires from.ok && from.done == 0 && k < ReleaseAll(cfg, from, batch, nonce).done
    ensures EntryFor(from, ReleaseAll(cfg, from, batch, nonce), batch, nonce, k)
    decreases |batch|
  {
    hide Exercise, LogVerbs, BufferVerbs, NumberedLog;
    var n := |batch| - 1;
    var front := ReleaseAll(cfg, from, batch[..n], nonce);
    ReleaseLog(cfg, from, batch[..n], nonce);
    if k < front.done {
      ReleaseEntries(cfg, from, batch[..n], nonce, k);
    }
    if front.ok {
      EntryStep(cfg, from, front, batch, nonce, k);
    }
  }

  lemma EntryStep(cfg: Config, from: Released, front: Released, batch: seq<Buffered>, nonce: Name, k: nat)
    requires batch != [] && front.ok && front.done == |batch| - 1 && |front.log| == |from.log| + front.done
    requires k < front.done ==> EntryFor(from, front, batch[..|batch| - 1], nonce, k)
    requires k < ReleaseOne(cfg, front, batch[|batch| - 1], nonce).done
    ensures EntryFor(from, ReleaseOne(cfg, front, batch[|batch| - 1], nonce), batch, nonce, k)
  {
    hide Exercise;
    var r := ReleaseOne(cfg, front, batch[|batch| - 1], nonce);
    if k < front.done {
      assert batch[..|batch| - 1][k] == batch[k];
      assert r.log[|from.log| + k] == front.log[|from.log| + k];
    }
  }

  function CountIn(batch: seq<Buffered>, v: VerbId): nat {
    if batch == [] then 0 else CountIn(batch[..|batch| - 1], v) + (if batch[|batch| - 1].verb == v then 1 else 0)
  }

  // The world failed the call for the item the release stopped at.
  predicate WorldFailed(cfg: Config, r: Released, batch: seq<Buffered>) {
    r.calls > 0 && r.done < |batch| && cfg.world(r.calls - 1, batch[r.done].verb, batch[r.done].args).Broke?
  }

  // A batch funded by a grant that lasts stops only when the world fails a call, never at the
  // budget gate.
  lemma {:induction false} ReleaseFunded(cfg: Config, from: Released, batch: seq<Buffered>, nonce: Name, k: nat,
                                         hi: nat)
    requires from.ok && from.done == 0 && ReleaseAll(cfg, from, batch, nonce).calls <= hi
    requires InTime(cfg, from.grants, k, from.calls, hi)
    requires forall v :: CountIn(batch, v) <= Left(from.grants, k, v)
    ensures var r := ReleaseAll(cfg, from, batch, nonce);
            && (r.ok ==>
                  && InTime(cfg, r.grants, k, from.calls, hi)
                  && forall v :: Left(from.grants, k, v) <= Left(r.grants, k, v) + CountIn(batch, v))
            && (!r.ok ==> WorldFailed(cfg, r, batch))
    decreases |batch|
  {
    hide Exercise, Left, InTime, Able;
    if batch != [] {
      var n := |batch| - 1;
      ReleaseCalls(cfg, from, batch[..n], nonce);
      forall v
        ensures CountIn(batch[..n], v) <= Left(from.grants, k, v)
      {
        assert CountIn(batch, v) <= Left(from.grants, k, v);
      }
      ReleaseFunded(cfg, from, batch[..n], nonce, k, hi);
      ReleaseLog(cfg, from, batch[..n], nonce);
      var front := ReleaseAll(cfg, from, batch[..n], nonce);
      if front.ok {
        var v := batch[n].verb;
        assert CountIn(batch, v) <= Left(from.grants, k, v);
        LeftAble(front.grants, k, v);
        LastsAt(cfg, front.grants, k, from.calls, hi, front.calls);
        GatePays(cfg, front.calls, front.grants, v, k);
        GateLasts(cfg, front.calls, front.grants, v, k, from.calls, hi);
      }
    }
  }

  lemma {:induction false} ReleaseCalls(cfg: Config, from: Released, batch: seq<Buffered>, nonce: Name)
    ensures from.calls <= ReleaseAll(cfg, from, batch, nonce).calls
  {
    hide Exercise;
    if batch != [] {
      ReleaseCalls(cfg, from, batch[..|batch| - 1], nonce);
    }
  }

  lemma LastsAt(cfg: Config, grants: seq<Grant>, k: nat, lo: nat, hi: nat, n: nat)
    requires InTime(cfg, grants, k, lo, hi) && lo <= n < hi
    ensures Lasting(cfg, n, grants, k)
  {
  }

  lemma GateLasts(cfg: Config, n: nat, grants: seq<Grant>, v: VerbId, k: nat, lo: nat, hi: nat)
    requires InTime(cfg, grants, k, lo, hi)
    ensures var g := Exercise(cfg, n, grants, v, 0, NoCapability);
            g.Open? ==> InTime(cfg, g.grants, k, lo, hi)
  {
    hide Exercise, InTime;
    ExerciseHolds(cfg, n, grants, v, 0, NoCapability);
    var g := Exercise(cfg, n, grants, v, 0, NoCapability);
    if g.Open? {
      StillInTime(cfg, grants, g.grants, k, lo, hi);
    }
  }

  // ----- what the batch needs -----

  function CostIn(batch: seq<Buffered>, v: VerbId): nat {
    if batch == [] then 0
    else CostIn(batch[..|batch| - 1], v) + (if batch[|batch| - 1].verb == v then batch[|batch| - 1].cost else 0)
  }

  function BatchNeed(batch: seq<Buffered>): Amounts {
    if batch == [] then map[]
    else
      var front, last := BatchNeed(batch[..|batch| - 1]), batch[|batch| - 1];
      front[last.verb := Amount(front, last.verb) + last.cost]
  }

  // The need names exactly the verbs of the batch, with the sum of their costs.
  lemma {:induction false} NeedExact(batch: seq<Buffered>, v: VerbId)
    ensures Amount(BatchNeed(batch), v) == CostIn(batch, v)
    ensures v in BatchNeed(batch) <==> exists i :: 0 <= i < |batch| && batch[i].verb == v
  {
    if batch != [] {
      var n := |batch| - 1;
      NeedExact(batch[..n], v);
      if exists i :: 0 <= i < |batch| && batch[i].verb == v {
        var i :| 0 <= i < |batch| && batch[i].verb == v;
        assert i < n ==> batch[..n][i].verb == v;
      }
      if v in BatchNeed(batch[..n]) {
        var i :| 0 <= i < n && batch[..n][i].verb == v;
        assert batch[i].verb == v;
      }
      assert batch[n].verb in BatchNeed(batch);
    }
  }

  method Tally(batch: seq<Buffered>) returns (need: Amounts)
    ensures need == BatchNeed(batch)
  {
    need := map[];
    for i := 0 to |batch|
      invariant need == BatchNeed(batch[..i])
    {
      assert batch[..i + 1][..i] == batch[..i];
      need := need[batch[i].verb := Amount(need, batch[i].verb) + batch[i].cost];
    }
    assert batch[..|batch|] == batch;
  }

  lemma {:induction false} CostIsCount(batch: seq<Buffered>, v: VerbId)
    requires UnitCost(batch)
    ensures CostIn(batch, v) == CountIn(batch, v)
  {
    if batch != [] {
      CostIsCount(batch[..|batch| - 1], v);
    }
  }

  // The release of a batch under a consent: fresh capabilities for exactly its need.
  function Approved(cfg: Config, grants: seq<Grant>, calls: nat, log: seq<Emission>, batch: seq<Buffered>,
                    c: Consent): Released
  {
    var need := BatchNeed(batch);
    ReleaseAll(cfg, Released(grants + [Mint(need.Keys, need, c.Expires())], calls, log, 0, true), batch, c.nonce)
  }

  // Capabilities minted for the need of a batch cover it, so while they last a release stops only
  // when the world fails a call.
  lemma ApprovalNeverShort(cfg: Config, grants: seq<Grant>, calls: nat, log: seq<Emission>, batch: seq<Buffered>,
                           c: Consent)
    requires UnitCost(batch)
    requires Timely(cfg, c, |grants|, calls, Approved(cfg, grants, calls, log, batch, c).calls)
    ensures var out := Approved(cfg, grants, calls, log, batch, c);
            !out.ok ==> WorldFailed(cfg, out, batch)
  {
    hide Exercise, Mint, Left, Timely, InTime;
    var need := BatchNeed(batch);
    var after := grants + [Mint(need.Keys, need, c.Expires())];
    var out := Approved(cfg, grants, calls, log, batch, c);
    MintInTime(cfg, c, need.Keys, need, grants, calls, out.calls);
    forall v
      ensures CountIn(batch, v) <= Left(after, |grants|, v)
    {
      NeedExact(batch, v);
      CostIsCount(batch, v);
      if v in need {
        MintLeft(need.Keys, need, c.Expires(), grants, v);
      }
    }
    ReleaseFunded(cfg, Released(after, calls, log, 0, true), batch, c.nonce, |grants|, out.calls);
  }

  // ----- the run record -----

  class PlanRun {
    const cfg: Config
    const plan: Name
    const originalEnd: nat
    var rows: seq<Row>
    var log: seq<Emission>
    var grants: seq<Grant>
    var calls: nat
    var phase: Phase

    // What the interpreter thread leaves behind.
    constructor (m: Machine, r: Result<(), Outcome>, c: Consent)
      requires NumberedBuffer(m.buffer) && |m.buffer| == m.withheld
      ensures cfg == m.cfg && log == m.log && grants == m.grants && calls == m.calls
      ensures plan == c.plan && originalEnd == c.Expires()
      ensures phase == if r.Err? then Done(Failed(r.error))
                       else if m.buffer == [] then Done(Completed) else AwaitingApproval
      ensures NumberedRows(rows) && |rows| == |m.buffer|
      ensures forall i :: 0 <= i < |rows| ==> rows[i] == Row(m.buffer[i], if r.Err? then Dropped else Held)
    {
      cfg := m.cfg;
      plan := c.plan;
      originalEnd := c.Expires();
      log := m.log;
      grants := m.grants;
      calls := m.calls;
      var buffer := m.buffer;
      var held := seq(|buffer|, i requires 0 <= i < |buffer| => Row(buffer[i], Held));
      rows := if r.Err? then Moved(held, Held, Dropped) else held;
      phase := if r.Err? then Done(Failed(r.error)) else if m.withheld == 0 then Done(Completed) else AwaitingApproval;
    }

    method LoadBuffer() returns (batch: seq<Buffered>)
      ensures batch == HeldItems(rows)
    {
      batch := [];
      for i := 0 to |rows|
        invariant batch == HeldItems(rows[..i])
      {
        assert rows[..i + 1][..i] == rows[..i];
        if rows[i].state.Held? {
          batch := batch + [rows[i].item];
        }
      }
      assert rows[..|rows|] == rows;
    }

    method MarkBuffer(num: nat, state: BufferState)
      requires NumberedRows(rows) && 1 <= num <= |rows|
      modifies this`rows
      ensures rows == old(rows)[num - 1 := old(rows[num - 1]).(state := state)] && NumberedRows(rows)
    {
      for i := 0 to |rows|
        invariant rows == if i < num then old(rows) else old(rows)[num - 1 := old(rows[num - 1]).(state := state)]
      {
        if rows[i].item.num == num {
          rows := rows[i := rows[i].(state := state)];
        }
      }
    }

    method SetBufferState(before: BufferState, after: BufferState)
      requires NumberedRows(rows)
      modifies this`rows
      ensures rows == Moved(old(rows), before, after) && NumberedRows(rows)
    {
      rows := Moved(rows, before, after);
    }

    // Invoke, log, then mark, item by item.
    method Release(batch: seq<Buffered>, nonce: Name) returns (done: nat, ok: bool)
      requires NumberedRows(rows) && forall i :: 0 <= i < |batch| ==> 1 <= batch[i].num <= |rows|
      modifies this`rows, this`log, this`grants, this`calls
      ensures var r := ReleaseAll(cfg, Released(old(grants), old(calls), old(log), 0, true), batch, nonce);
              && r == Released(grants, calls, log, done, ok) && done <= |batch|
              && rows == MarkedUpTo(old(rows), batch, done)
      ensures NumberedRows(rows)
    {
      hide Exercise;
      ghost var from := Released(grants, calls, log, 0, true);
      ghost var rows0 := rows;
      for i := 0 to |batch|
        invariant ReleaseAll(cfg, from, batch[..i], nonce) == Released(grants, calls, log, i, true)
        invariant rows == MarkedUpTo(rows0, batch, i) && NumberedRows(rows)
      {
        assert batch[..i + 1][..i] == batch[..i];
        var gate := ExerciseFirst(cfg, calls, grants, batch[i].verb);
        var answered := false;
        if gate.Open? {
          grants := gate.grants;
          var answer := cfg.world(calls, batch[i].verb, batch[i].args);
          answered := answer.Returned?;
        }
        calls := calls + 1;
        if !answered {
          ReleaseStop(cfg, from, batch, i + 1, nonce);
          return i, false;
        }
        log := log + [Emission(|log| + 1, batch[i].verb, batch[i].target, nonce)];
        MarkBuffer(batch[i].num, Inserted);
      }
      assert batch[..|batch|] == batch;
      return |batch|, true;
    }

    // In order: the run awaits approval, its original consent has not run out, the fresh consent
    // is genuine, in time, for this plan and unused, and it covers the whole batch. Only then is
    // anything released; a failed release drops the rest.
    method Approve(book: ConsentBook, c: Consent, genuine: bool, now: nat) returns (r: Result<(), ApproveError>)
      requires NumberedRows(rows)
      modifies this, book
      ensures NumberedRows(rows)
      ensures r.Err? && !r.error.ReleaseStopped? ==> unchanged(this)
      ensures r == Err(NotAwaiting) <==> !old(phase).AwaitingApproval?
      ensures r == Err(OriginalExpired) <==> old(phase).AwaitingApproval? && now > originalEnd
      ensures r.Err? && r.error.NotConsented? <==>
                && old(phase).AwaitingApproval? && now <= originalEnd
                && (!genuine || now > c.Expires() || c.plan != plan || c.nonce in old(book.used))
      ensures book.used == if r.Err? && (r.error.NotAwaiting? || r.error.OriginalExpired? || r.error.NotConsented?)
                           then old(book.used) else old(book.used) + {c.nonce}
      ensures r.Err? && r.error.Short? ==> CostIn(HeldItems(old(rows)), r.error.verb) > Amount(c.budget, r.error.verb)
      ensures r.Ok? || r.error.ReleaseStopped? ==>
                var batch := HeldItems(old(rows));
                var out := Approved(cfg, old(grants), old(calls), old(log), batch, c);
                && (forall v :: CostIn(batch, v) <= Amount(c.budget, v))
                && out.grants == grants && out.calls == calls && out.log == log && (r.Ok? <==> out.ok)
                && out.done <= |batch| && ItemsInRange(old(rows), batch)
                && rows == Moved(MarkedUpTo(old(rows), batch, out.done), Held, if out.ok then Inserted else Dropped)
                && RowsSettled(old(rows), rows, out.done, out.ok)
                && (out.ok ==> phase == Done(Completed))
                && (!out.ok ==>
                      && out.done < |batch|
                      && phase == Done(ReleaseFailed(batch[out.done].verb)) && r.error.verb == batch[out.done].verb)
    {
      hide Exercise, Mint, ReleaseAll, BatchNeed, RowsSettled;
      if !phase.AwaitingApproval? {
        return Err(NotAwaiting);
      }
      if now > originalEnd {
        return Err(OriginalExpired);
      }
      var consumed := book.CheckAndConsume(c, plan, genuine, now);
      if consumed.Err? {
        return Err(ApproveError.NotConsented(consumed.error));
      }
      var batch := LoadBuffer();
      HeldInRange(rows);
      var need := Tally(batch);
      forall v
        ensures Amount(need, v) == CostIn(batch, v)
      {
        NeedExact(batch, v);
      }
      var short := CheckConsent(need, c.budget);
      if short.Some? {
        return Err(Short(short.value));
      }
      assert forall v :: CostIn(batch, v) <= Amount(c.budget, v) by {
        forall v
          ensures CostIn(batch, v) <= Amount(c.budget, v)
        {
          assert Amount(need, v) <= Amount(c.budget, v);
        }
      }
      var minted := MintFiberCaps(need.Keys, need, c.Expires());
      grants := grants + [minted];
      var done, ok := Release(batch, c.nonce);
      ReleaseLog(cfg, Released(old(grants) + [minted], old(calls), old(log), 0, true), batch, c.nonce);
      ReleasedRows(old(rows), done, ok);
      if !ok {
        SetBufferState(Held, Dropped);
        phase := Done(ReleaseFailed(batch[done].verb));
        return Err(ReleaseStopped(batch[done].verb));
      }
      SetBufferState(Held, Inserted);
      phase := Done(Completed);
      return Ok(());
    }

    static lemma {:induction false} ReleaseStop(cfg: Config, from: Released, batch: seq<Buffered>, n: nat, nonce: Name)
      requires n <= |batch| && !ReleaseAll(cfg, from, batch[..n], nonce).ok
      ensures ReleaseAll(cfg, from, batch, nonce) == ReleaseAll(cfg, from, batch[..n], nonce)
      decreases |batch| - n
    {
      hide Exercise;
      if n == |batch| {
        assert batch[..n] == batch;
      } else {
        assert batch[..n + 1][..n] == batch[..n];
        ReleaseStop(cfg, from, batch, n + 1, nonce);
      }
    }
  }

  // ----- the rows an approval leaves -----

  // Of the held rows, in order, those released are inserted; the rest share the end of the batch.
  // Every other row, and every item, stays.
  predicate RowsSettled(rows: seq<Row>, after: seq<Row>, done: nat, ok: bool) {
    && |after| == |rows|
    && forall i {:trigger after[i]} :: 0 <= i < |rows| ==>
         && after[i].item == rows[i].item
         && after[i].state ==
              if rows[i].state != Held then rows[i].state
              else if ok || |HeldItems(rows[..i])| < done then Inserted
              else Dropped
  }

  // The k-th held item is that of the row with k held rows before it.
  lemma {:induction false} HeldPlace(rows: seq<Row>, k: nat) returns (i: nat)
    requires k < |HeldItems(rows)|
    ensures i < |rows| && rows[i].state.Held? && rows[i].item == HeldItems(rows)[k] && |HeldItems(rows[..i])| == k
  {
    var n := |rows| - 1;
    if k < |HeldItems(rows[..n])| {
      i := HeldPlace(rows[..n], k);
      assert rows[..n][..i] == rows[..i];
    } else {
      i := n;
    }
  }

  lemma {:induction false} HeldGrows(rows: seq<Row>, i: nat)
    requires i < |rows| && rows[i].state.Held?
    ensures |HeldItems(rows[..i])| < |HeldItems(rows)|
    decreases |rows|
  {
    var n := |rows| - 1;
    if i < n {
      HeldGrows(rows[..n], i);
      assert rows[..n][..i] == rows[..i];
    }
  }

  lemma {:induction false} HeldOrder(rows: seq<Row>, i: nat, j: nat)
    requires i < j <= |rows| && rows[i].state.Held?
    ensures |HeldItems(rows[..i])| < |HeldItems(rows[..j])|
  {
    HeldGrows(rows[..j], i);
    assert rows[..j][..i] == rows[..i];
  }

  lemma {:induction false} MarkedState(rows: seq<Row>, batch: seq<Buffered>, n: nat, i: nat)
    requires n <= |batch| && ItemsInRange(rows, batch) && i < |rows|
    ensures var r := MarkedUpTo(rows, batch, n);
            && r[i].item == rows[i].item
            && r[i].state == if exists k :: 0 <= k < n && batch[k].num == i + 1 then Inserted else rows[i].state
    decreases n
  {
    if n > 0 {
      MarkedState(rows, batch, n - 1, i);
    }
  }

  lemma ReleasedRows(rows: seq<Row>, done: nat, ok: bool)
    requires NumberedRows(rows) && ItemsInRange(rows, HeldItems(rows)) && done <= |HeldItems(rows)|
    requires ok ==> done == |HeldItems(rows)|
    ensures RowsSettled(rows, Moved(MarkedUpTo(rows, HeldItems(rows), done), Held, if ok then Inserted else Dropped),
                        done, ok)
  {
    var batch := HeldItems(rows);
    var marked := MarkedUpTo(rows, batch, done);
    forall i | 0 <= i < |rows|
      ensures marked[i].item == rows[i].item
      ensures marked[i].state ==
              if rows[i].state.Held? && |HeldItems(rows[..i])| < done then Inserted else rows[i].state
    {
      MarkedState(rows, batch, done, i);
      forall k | 0 <= k < done && batch[k].num == i + 1
        ensures rows[i].state.Held? && |HeldItems(rows[..i])| == k
      {
        var j := HeldPlace(rows, k);
      }
      if rows[i].state.Held? && |HeldItems(rows[..i])| < done {
        var k := |HeldItems(rows[..i])|;
        var j := HeldPlace(rows, k);
        if i < j {
          HeldOrder(rows, i, j);
        } else if j < i {
          HeldOrder(rows, j, i);
        }
        assert batch[k].num == i + 1;
      }
    }
  }

  function MarkedUpTo(rows: seq<Row>, batch: seq<Buffered>, n: nat): (r: seq<Row>)
    requires n <= |batch| && forall i :: 0 <= i < |batch| ==> 1 <= batch[i].num <= |rows|
    ensures |r| == |rows|
  {
    if n == 0 then rows
    else
      var r := MarkedUpTo(rows, batch, n - 1);
      r[batch[n - 1].num - 1 := r[batch[n - 1].num - 1].(state := Inserted)]
  }

  predicate ItemsInRange(rows: seq<Row>, batch: seq<Buffered>) {
    forall i :: 0 <= i < |batch| ==> 1 <= batch[i].num <= |rows|
  }

  lemma {:induction false} HeldInRange(rows: seq<Row>)
    requires NumberedRows(rows)
    ensures ItemsInRange(rows, HeldItems(rows))
  {
    if rows != [] {
      HeldInRange(rows[..|rows| - 1]);
    }
  }

  // ----- the order the world sees -----

  lemma {:induction false} PickIsKept(cfg: Config, t: Path, notes: seq<Note>, withhold: set<Name>, held: bool)
    requires |t| == |notes| && forall v, arg :: cfg.withhold(v, arg) <==> v.verb in withhold
    requires forall i :: 0 <= i < |t| ==> Decided(cfg, t[i], notes[i].held)
    ensures Pick(t, notes, held) == Kept(t, if held then P.Later(withhold) else P.Now(withhold))
  {
    if t != [] {
      var n := |t| - 1;
      PickIsKept(cfg, t[..n], notes[..n], withhold, held);
      assert Decided(cfg, t[n], notes[n].held);
    }
  }

  // What a run that reached its end leaves: a path of the projected plan, its logs, unit costs.
  lemma RunLeaves(cfg: Config, st: RunState, stmts: seq<Stmt>)
    requires EscalateFree(stmts) || NeverResumed(st.signals)
    requires st.trace == [] && st.notes == [] && st.log == [] && st.buffer == [] && st.withheld == 0
    ensures var r := ExecBlock(cfg, st, stmts, PUBLIC);
            Sorted(cfg, r.st) && (r.res.Ok? ==> IsPath(Shape(stmts), r.st.trace))
  {
    hide ExecList, IsPath, Sorted;
    var u, w := ListFollows(cfg, st, stmts, PUBLIC, |stmts|);
    assert [] + u == u;
    SortedAtStart(cfg, st);
    ListKeepsSorted(cfg, st, stmts, PUBLIC, |stmts|);
  }

  // A run that reached its end, followed by a complete release of its buffer, shows the
  // world the immediate effects in program order and then the withheld ones in program
  // order; the program order itself is a path of the projected plan.
  lemma WorldSees(cfg: Config, st: RunState, stmts: seq<Stmt>, from: Released, approval: Name)
    requires EscalateFree(stmts) || NeverResumed(st.signals)
    requires st.trace == [] && st.notes == [] && st.log == [] && st.buffer == [] && st.withheld == 0
    requires var r := ExecBlock(cfg, st, stmts, PUBLIC);
             && r.res.Ok? && from.ok && from.done == 0 && from.log == r.st.log
             && ReleaseAll(cfg, from, r.st.buffer, approval).ok
    ensures var end := ExecBlock(cfg, st, stmts, PUBLIC).st;
            var out := ReleaseAll(cfg, from, end.buffer, approval);
            && IsPath(Shape(stmts), end.trace) && |end.notes| == |end.trace|
            && LogVerbs(out.log) == Pick(end.trace, end.notes, false) + Pick(end.trace, end.notes, true)
            && NumberedLog(out.log)
  {
    hide Exercise, ExecBlock, IsPath, Pick;
    var r := ExecBlock(cfg, st, stmts, PUBLIC);
    RunLeaves(cfg, st, stmts);
    ReleaseLog(cfg, from, r.st.buffer, approval);
    assert r.st.buffer[..|r.st.buffer|] == r.st.buffer;
  }

  lemma SortedAtStart(cfg: Config, st: RunState)
    requires st.trace == [] && st.notes == [] && st.log == [] && st.buffer == [] && st.withheld == 0
    ensures Sorted(cfg, st)
  {
  }

  // If the static check accepts, the emission log of the run and its approval is legal.
  lemma AcceptedWorldOrder(cfg: Config, st: RunState, stmts: seq<Stmt>, from: Released, approval: Name, p: P.Automaton,
                           withhold: set<Name>)
    requires EscalateFree(stmts) || NeverResumed(st.signals)
    requires st.trace == [] && st.notes == [] && st.log == [] && st.buffer == [] && st.withheld == 0
    requires forall v, arg :: cfg.withhold(v, arg) <==> v.verb in withhold
    requires P.AllSplitsLegal(p, Shape(stmts), P.Now(withhold), P.Later(withhold))
    requires var r := ExecBlock(cfg, st, stmts, PUBLIC);
             && r.res.Ok? && from.ok && from.done == 0 && from.log == r.st.log
             && ReleaseAll(cfg, from, r.st.buffer, approval).ok
    ensures var end := ExecBlock(cfg, st, stmts, PUBLIC).st;
            var out := ReleaseAll(cfg, from, end.buffer, approval);
            && LogVerbs(out.log) == P.WorldOrder(end.trace, withhold)
            && P.Run(p, p.initial, LogVerbs(out.log)).Some?
  {
    hide ExecBlock, ReleaseAll, IsPath, P.Run, Kept, Pick, P.AllSplitsLegal, Decided;
    var end := ExecBlock(cfg, st, stmts, PUBLIC).st;
    WorldSees(cfg, st, stmts, from, approval);
    RunLeaves(cfg, st, stmts);
    PickIsKept(cfg, end.trace, end.notes, withhold, false);
    PickIsKept(cfg, end.trace, end.notes, withhold, true);
    P.SplitsCover(p, Shape(stmts), withhold);
  }

  // ----- a whole run -----

  // Start under a consent, run to the end, keep the record. Unless an escalating loop is resumed,
  // the run stays within S_MAX statements and within the consent. Without escalating loops and
  // under capabilities that last through its calls, it never stops at an effect for budget when the
  // consent suffices for the performed verbs, and no call at all is refused for budget when it
  // suffices for every demanded verb. When each name is bound once, it never stops at a sink.
  method RunPlan(cfg: Config, stmts: seq<Stmt>, plan: Name, book: ConsentBook, c: Consent, genuine: bool, now: nat,
                 signals: seq<Signal>)
    returns (r: Result<PlanRun, StartError>)
    modifies book
    ensures r.Ok? <==>
              && genuine && now <= c.Expires() && c.plan == plan && c.nonce !in old(book.used)
              && Startable(stmts, cfg.schemas, c)
    ensures book.used == if r.Err? && r.error.NotConsented? then old(book.used) else old(book.used) + {c.nonce}
    ensures r.Ok? ==>
              var run := RunOf(cfg, stmts, c, signals);
              && fresh(r.value) && Records(r.value, cfg, c, run)
    ensures r.Ok? && (EscalateFree(stmts) || NeverResumed(signals)) ==>
              var run := RunOf(cfg, stmts, c, signals);
              run.st.steps <= S_MAX && forall v :: CountOf(run.st.trace, v) <= Amount(c.budget, v)
    ensures r.Ok? && EscalateFree(stmts) && Timely(cfg, c, 0, 0, RunOf(cfg, stmts, c, signals).st.calls) ==>
              var run := RunOf(cfg, stmts, c, signals);
              && (Suffices(stmts, c, EffectVerbs(stmts)) ==> NeverShort(run))
              && (Suffices(stmts, c, VerbDemand(stmts)) ==>
                    forall i :: 0 <= i < |run.st.asked| ==> !run.st.asked[i].reply.Exhausted?)
    ensures r.Ok? && BindsOnce(stmts, {}) ==>
              var run := RunOf(cfg, stmts, c, signals);
              L.Sound(LabelPass(cfg.schemas, map[], stmts, PUBLIC).value, N.Anns(cfg.schemas, map[], stmts, PUBLIC, 1),
                run)
  {
    hide A.Admissible, Occ, Mint, ExecBlock, EscalateFree, BindsOnce, LabelPass, L.Sound, N.Anns, Timely, Steps;
    hide ReadOcc;
    var started := Start(stmts, plan, cfg.schemas, book, c, genuine, now);
    if started.Err? {
      return Err(started.error);
    }
    var m := new Machine(cfg, started.value, c.nonce, signals);
    SortedAtStart(cfg, m.View());
    SortedAtEnd(cfg, m.View(), stmts);
    var end := m.ExecStmts(stmts, PUBLIC);
    var run := new PlanRun(m, end, c);
    RowsHold(run.rows, m.buffer, if end.Err? then Dropped else Held);
    if EscalateFree(stmts) || NeverResumed(signals) {
      WithinConsent(cfg, stmts, c, signals);
    }
    if EscalateFree(stmts) && Timely(cfg, c, 0, 0, RunOf(cfg, stmts, c, signals).st.calls) {
      BudgetKept(cfg, stmts, c, signals);
    }
    if BindsOnce(stmts, {}) {
      L.RunLabels(cfg, stmts, started.value, c.nonce, signals);
    }
    return Ok(run);
  }

  lemma BudgetKept(cfg: Config, stmts: seq<Stmt>, c: Consent, signals: seq<Signal>)
    requires Startable(stmts, cfg.schemas, c) && EscalateFree(stmts)
    requires Timely(cfg, c, 0, 0, RunOf(cfg, stmts, c, signals).st.calls)
    ensures var run := RunOf(cfg, stmts, c, signals);
            && (Suffices(stmts, c, EffectVerbs(stmts)) ==> NeverShort(run))
            && (Suffices(stmts, c, VerbDemand(stmts)) ==>
                  forall i :: 0 <= i < |run.st.asked| ==> !run.st.asked[i].reply.Exhausted?)
  {
    hide Startable, EscalateFree, Timely, Suffices, RunOf, NeverShort;
    EffectsDemanded(stmts);
    if Suffices(stmts, c, EffectVerbs(stmts)) {
      FundedRun(cfg, stmts, c, signals, EffectVerbs(stmts));
    }
    if Suffices(stmts, c, VerbDemand(stmts)) {
      forall i | 0 <= i < |RunOf(cfg, stmts, c, signals).st.asked|
        ensures !RunOf(cfg, stmts, c, signals).st.asked[i].reply.Exhausted?
      {
        R.CallsDecided(cfg, stmts, c, signals, i);
      }
    }
  }

  // The record of a finished run.
  ghost predicate Records(p: PlanRun, cfg: Config, c: Consent, run: Run<()>)
    reads p
  {
    && p.cfg == cfg && p.plan == c.plan && p.originalEnd == c.Expires()
    && NumberedRows(p.rows) && p.log == run.st.log && p.grants == run.st.grants && p.calls == run.st.calls
    && (p.phase == Done(Completed) <==> run.res.Ok? && run.st.buffer == [])
    && (p.phase == AwaitingApproval <==> run.res.Ok? && run.st.buffer != [])
    && (run.res.Ok? ==> HeldItems(p.rows) == run.st.buffer)
    && (run.res.Err? ==> p.phase == Done(Failed(run.res.error)) && HeldItems(p.rows) == [])
  }

  lemma WithinConsent(cfg: Config, stmts: seq<Stmt>, c: Consent, signals: seq<Signal>)
    requires Startable(stmts, cfg.schemas, c) && (EscalateFree(stmts) || NeverResumed(signals))
    ensures var end := RunOf(cfg, stmts, c, signals).st;
            end.steps <= S_MAX && forall v :: CountOf(end.trace, v) <= Amount(c.budget, v)
  {
    hide Mint, ExecBlock, Steps, Nodes, NestedOk, EscalateFree, Occ;
    RunWithinBounds(cfg, Started(stmts, c, signals), stmts, PUBLIC);
    var end := RunOf(cfg, stmts, c, signals).st;
    forall v
      ensures CountOf(end.trace, v) <= Amount(c.budget, v)
    {
      assert CountOf(end.trace, v) <= Occ(stmts, v);
    }
  }

  // From consent to the last withheld effect: run the plan, and approve it if it waits. When the
  // record ends completed, its log is one path of the plan, immediate effects first and each
  // group in program order, within the first consent; and an approval that got as far as
  // releasing, under a consent that lasts, stops only when the world fails a call.
  method RunAndApprove(cfg: Config, stmts: seq<Stmt>, plan: Name, book: ConsentBook, c: Consent, genuine: bool,
                       now: nat, signals: seq<Signal>, again: Consent, genuineAgain: bool, later: nat)
    returns (r: Result<PlanRun, StartError>, a: Result<(), ApproveError>)
    modifies book
    ensures r.Ok? <==>
              && genuine && now <= c.Expires() && c.plan == plan && c.nonce !in old(book.used)
              && Startable(stmts, cfg.schemas, c)
    ensures r.Ok? && r.value.phase == Done(Completed) && (EscalateFree(stmts) || NeverResumed(signals)) ==>
              var end := RunOf(cfg, stmts, c, signals).st;
              && IsPath(Shape(stmts), end.trace) && |end.notes| == |end.trace|
              && LogVerbs(r.value.log) == Pick(end.trace, end.notes, false) + Pick(end.trace, end.notes, true)
              && NumberedLog(r.value.log)
              && forall v :: CountOf(end.trace, v) <= Amount(c.budget, v)
    ensures r.Ok? && a.Err? && a.error.ReleaseStopped? ==>
              var run := RunOf(cfg, stmts, c, signals);
              var out := Approved(cfg, run.st.grants, run.st.calls, run.st.log, run.st.buffer, again);
              Timely(cfg, again, |run.st.grants|, run.st.calls, out.calls) ==> WorldFailed(cfg, out, run.st.buffer)
    ensures r.Ok? && c.nonce == again.nonce ==> a.Err?
  {
    hide A.Admissible, ExecBlock, EscalateFree, BindsOnce, LabelPass, L.Sound, N.Anns, Timely, Approved, IsPath, Pick;
    hide Occ;
    a := Err(NotAwaiting);
    r := RunPlan(cfg, stmts, plan, book, c, genuine, now, signals);
    if r.Ok? {
      ghost var run := RunOf(cfg, stmts, c, signals);
      BufferCosts(cfg, stmts, c, signals);
      a := r.value.Approve(book, again, genuineAgain, later);
      if r.value.phase == Done(Completed) && (EscalateFree(stmts) || NeverResumed(signals)) {
        EndToEnd(cfg, stmts, c, signals, again);
      }
      ghost var out := Approved(cfg, run.st.grants, run.st.calls, run.st.log, run.st.buffer, again);
      if a.Err? && a.error.ReleaseStopped? && Timely(cfg, again, |run.st.grants|, run.st.calls, out.calls) {
        ApprovalNeverShort(cfg, run.st.grants, run.st.calls, run.st.log, run.st.buffer, again);
      }
    }
  }

  lemma BufferCosts(cfg: Config, stmts: seq<Stmt>, c: Consent, signals: seq<Signal>)
    ensures UnitCost(RunOf(cfg, stmts, c, signals).st.buffer)
  {
    hide ExecBlock, Mint;
    var st := Started(stmts, c, signals);
    SortedAtStart(cfg, st);
    SortedAtEnd(cfg, st, stmts);
  }

  // A run without withheld effects shows them all at once; otherwise a complete release follows.
  lemma EndToEnd(cfg: Config, stmts: seq<Stmt>, c: Consent, signals: seq<Signal>, again: Consent)
    requires EscalateFree(stmts) || NeverResumed(signals)
    requires RunOf(cfg, stmts, c, signals).res.Ok?
    ensures var end := RunOf(cfg, stmts, c, signals).st;
            && IsPath(Shape(stmts), end.trace) && |end.notes| == |end.trace|
            && (end.buffer == [] ==>
                  && LogVerbs(end.log) == Pick(end.trace, end.notes, false) + Pick(end.trace, end.notes, true)
                  && NumberedLog(end.log))
            && var out := Approved(cfg, end.grants, end.calls, end.log, end.buffer, again);
               out.ok ==>
                 && LogVerbs(out.log) == Pick(end.trace, end.notes, false) + Pick(end.trace, end.notes, true)
                 && NumberedLog(out.log)
  {
    hide ExecBlock, IsPath, Mint, ReleaseAll, Pick, LogVerbs;
    var st := Started(stmts, c, signals);
    var end := ExecBlock(cfg, st, stmts, PUBLIC).st;
    RunLeaves(cfg, st, stmts);
    var need := BatchNeed(end.buffer);
    var from := Released(end.grants + [Mint(need.Keys, need, again.Expires())], end.calls, end.log, 0, true);
    if Approved(cfg, end.grants, end.calls, end.log, end.buffer, again).ok {
      WorldSees(cfg, st, stmts, from, again.nonce);
    }
  }

  lemma SortedAtEnd(cfg: Config, st: RunState, stmts: seq<Stmt>)
    requires Sorted(cfg, st)
    ensures Sorted(cfg, ExecBlock(cfg, st, stmts, PUBLIC).st)
  {
    hide Sorted, ExecList;
    ListKeepsSorted(cfg, st, stmts, PUBLIC, |stmts|);
  }

  lemma {:induction false} RowsHold(rows: seq<Row>, buffer: seq<Buffered>, state: BufferState)
    requires |rows| == |buffer| && forall i :: 0 <= i < |rows| ==> rows[i] == Row(buffer[i], state)
    ensures HeldItems(rows) == if state.Held? then buffer else []
    decreases |rows|
  {
    if rows != [] {
      var n := |rows| - 1;
      RowsHold(rows[..n], buffer[..n], state);
      assert buffer == buffer[..n] + [buffer[n]];
    }
  }
}
