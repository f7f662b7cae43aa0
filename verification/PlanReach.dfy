// Which capabilities a run asks for, which of its calls find one, and when they pass.

module PlanReach {
  import opened Prelude
  import opened PlanShapes
  import opened PlanIr
  import opened PlanCheck
  import opened PlanAdmission
  import opened PlanSemantics
  import opened PlanFrames
  import opened PlanSignals
  import opened PlanBudget
  import opened PlanStart

  // ----- the reads the demand leaves out -----

  // Verbs read in the arguments of effects, pure computation included.
  function ArgReads(stmts: seq<Stmt>): set<VerbId>
    decreases stmts, 0
  {
    if stmts == [] then {} else ArgReads(stmts[..|stmts| - 1]) + StmtArgReads(stmts[|stmts| - 1])
  }

  function StmtArgReads(s: Stmt): set<VerbId>
    decreases s, 0
  {
    match s
    case Let(_, _) => {}
    case Effect(_, args) => ArgsDemand(args)
    case If(_, a, b) => ArgReads(a) + ArgReads(b)
    case Foreach(_, _, _, _, body) => ArgReads(body)
  }

  function Reachable(stmts: seq<Stmt>): set<VerbId> {
    VerbDemand(stmts) + ArgReads(stmts)
  }

  // The minted capabilities cover every verb the plan may reach if and only if what effects
  // read in their arguments is also demanded elsewhere.
  lemma DemandCovers(stmts: seq<Stmt>, c: Consent)
    ensures (forall v :: v in Reachable(stmts) ==> Covers(Mint(VerbDemand(stmts), c.budget, c.Expires()), v)) <==>
            ArgReads(stmts) <= VerbDemand(stmts)
  {
    hide Mint, Covers;
    var g := Mint(VerbDemand(stmts), c.budget, c.Expires());
    forall v
      ensures Covers(g, v) <==> v in VerbDemand(stmts)
    {
      MintCovers(VerbDemand(stmts), c.budget, c.Expires(), v);
    }
    if forall v :: v in Reachable(stmts) ==> Covers(g, v) {
      forall v | v in ArgReads(stmts)
        ensures v in VerbDemand(stmts)
      {
        assert v in Reachable(stmts);
      }
    }
  }

  // ----- the calls of a run -----

  // What is known of the first grant: it covers `demand`; for how many calls it lasts; whether it
  // is the only one.
  datatype Setting = Setting(demand: set<VerbId>, reach: set<VerbId>, lasts: nat, alone: bool)

  ghost predicate Set(cfg: Config, x: Setting, st: RunState) {
    && st.grants != []
    && (forall v :: Covers(st.grants[0], v) <==> v in x.demand)
    && InTime(cfg, st.grants, 0, 0, x.lasts)
    && (x.alone ==> NeverResumed(st.signals) && |st.grants| == 1)
  }

  lemma SetAfter(cfg: Config, x: Setting, a: RunState, b: RunState)
    requires Set(cfg, x, a) && Onward(a, b)
    ensures Set(cfg, x, b)
  {
    assert SameTerms(a.grants[0], b.grants[0]);
    StillInTime(cfg, a.grants, b.grants, 0, 0, x.lasts);
  }

  // At call `i` capability `k` covers the verb, is live and within its time.
  predicate InForce(cfg: Config, i: nat, grants: seq<Grant>, k: nat, v: VerbId) {
    Candidate(cfg, i, grants, k, v) && cfg.clock(i) <= grants[k][v.handler].expires
  }

  ghost predicate EntryOk(cfg: Config, x: Setting, grants: seq<Grant>, i: nat, e: Asked) {
    && e.verb in x.reach
    && (i < x.lasts && e.verb in x.demand ==> !e.reply.Missing?)
    && (x.alone && e.verb !in x.demand ==> e.reply.Missing?)
    && (e.reply.Passed? ==> exists k: nat :: InForce(cfg, i, grants, k, e.verb))
  }

  lemma EntryHeld(cfg: Config, x: Setting, a: seq<Grant>, b: seq<Grant>, i: nat, e: Asked)
    requires EntryOk(cfg, x, a, i, e) && Held(a, b)
    ensures EntryOk(cfg, x, b, i, e)
  {
    if e.reply.Passed? {
      var k: nat :| InForce(cfg, i, a, k, e.verb);
      assert SameTerms(a[k], b[k]);
      assert InForce(cfg, i, b, k, e.verb);
    }
  }

  function StopVerb<T>(r: Result<T, Outcome>): Option<VerbId> {
    if r.Err? && r.error.FailStop? && r.error.at.CallFailed? then Some(r.error.at.verb) else None
  }

  // The calls between two states; one that `demand` leaves out is the last, and the run stops there.
  ghost predicate Calls(cfg: Config, x: Setting, a: RunState, b: RunState, stop: Option<VerbId>) {
    && a.calls == |a.asked| && b.calls == |b.asked| && a.asked <= b.asked
    && forall i: nat {:trigger b.asked[i]} :: |a.asked| <= i < |b.asked| ==>
         && EntryOk(cfg, x, b.grants, i, b.asked[i])
         && (x.alone && b.asked[i].verb !in x.demand ==> i == |b.asked| - 1 && stop == Some(b.asked[i].verb))
  }

  lemma NoCalls(cfg: Config, x: Setting, a: RunState, b: RunState, stop: Option<VerbId>)
    requires a.calls == |a.asked| && b.calls == a.calls && b.asked == a.asked
    ensures Calls(cfg, x, a, b, stop)
  {
  }

  lemma CallsFrame(cfg: Config, x: Setting, a: RunState, b: RunState, c: RunState, stop: Option<VerbId>)
    requires Calls(cfg, x, a, b, stop) && c.calls == b.calls && c.asked == b.asked && Held(b.grants, c.grants)
    ensures Calls(cfg, x, a, c, stop)
  {
    hide EntryOk, Held;
    forall i: nat | |a.asked| <= i < |c.asked|
      ensures EntryOk(cfg, x, c.grants, i, c.asked[i])
    {
      assert EntryOk(cfg, x, b.grants, i, b.asked[i]);
      EntryHeld(cfg, x, b.grants, c.grants, i, c.asked[i]);
    }
  }

  // After calls that did not stop the run come the others.
  lemma CallsAdd(cfg: Config, x: Setting, a: RunState, b: RunState, c: RunState, stop: Option<VerbId>)
    requires Calls(cfg, x, a, b, None) && Calls(cfg, x, b, c, stop) && Onward(b, c)
    ensures Calls(cfg, x, a, c, stop)
  {
    hide EntryOk, Held;
    forall i: nat | |a.asked| <= i < |c.asked|
      ensures EntryOk(cfg, x, c.grants, i, c.asked[i])
      ensures x.alone && c.asked[i].verb !in x.demand ==> i == |c.asked| - 1 && stop == Some(c.asked[i].verb)
    {
      if i < |b.asked| {
        assert b.asked[i] == c.asked[i];
        assert EntryOk(cfg, x, b.grants, i, b.asked[i]);
        EntryHeld(cfg, x, b.grants, c.grants, i, c.asked[i]);
      } else {
        assert EntryOk(cfg, x, c.grants, i, c.asked[i]);
      }
    }
  }

  lemma InvokeCalls(cfg: Config, x: Setting, st: RunState, v: VerbId, arg: Value)
    requires Set(cfg, x, st) && st.calls == |st.asked| && v in x.reach
    ensures var after := InvokeState(cfg, st, v);
            && EntryOk(cfg, x, after.grants, st.calls, Asked(v, ReplyOf(Gated(cfg, st, v))))
            && Calls(cfg, x, st, after, if x.alone && v !in x.demand then Some(v) else None)
            && (x.alone && v !in x.demand ==> Invoke(cfg, st, v, arg).GateRefused?)
  {
    hide Exercise;
    GateExact(cfg, st.calls, st.grants, v);
    InvokeOnward(cfg, st, v);
    var after := InvokeState(cfg, st, v);
    var e := Asked(v, ReplyOf(Gated(cfg, st, v)));
    assert after.asked[..|st.asked|] == st.asked;
    if e.reply.Passed? {
      var k: nat :| Usable(cfg, st.calls, st.grants, k, v);
      assert InForce(cfg, st.calls, st.grants, k, v);
    }
    if st.calls < x.lasts && v in x.demand {
      assert Lasting(cfg, st.calls, st.grants, 0);
      assert Candidate(cfg, st.calls, st.grants, 0, v);
    }
    assert EntryOk(cfg, x, st.grants, st.calls, e);
    EntryHeld(cfg, x, st.grants, after.grants, st.calls, e);
  }

  // A call that finds no capability because nobody demanded it stops the run at that verb.
  lemma ReadCalls(cfg: Config, x: Setting, st: RunState, a: RunState, v: VerbId, arg: Value, taint: Label)
    requires Calls(cfg, x, st, a, None) && Onward(st, a) && Set(cfg, x, st) && v in x.reach
    ensures var r := Read(cfg, a, v, arg, taint);
            Calls(cfg, x, st, r.st, StopVerb(r.res))
  {
    hide EntryOk, Gated, Set;
    SetAfter(cfg, x, st, a);
    InvokeCalls(cfg, x, a, v, arg);
    InvokeOnward(cfg, a, v);
    var r := Read(cfg, a, v, arg, taint);
    assert x.alone && v !in x.demand ==> StopVerb(r.res) == Some(v);
    CallsWeaken(cfg, x, a, r.st, if x.alone && v !in x.demand then Some(v) else None, StopVerb(r.res));
    CallsAdd(cfg, x, st, a, r.st, StopVerb(r.res));
  }

  lemma CallsWeaken(cfg: Config, x: Setting, a: RunState, b: RunState, stop: Option<VerbId>, other: Option<VerbId>)
    requires Calls(cfg, x, a, b, stop) && (stop.Some? ==> other == stop)
    ensures Calls(cfg, x, a, b, other)
  {
    hide EntryOk;
  }

  lemma {:induction false} EvalCalls(cfg: Config, x: Setting, st: RunState, e: Expr)
    requires Set(cfg, x, st) && st.calls == |st.asked| && ExprDemand(e) <= x.reach
    ensures Calls(cfg, x, st, Eval(cfg, st, e).st, StopVerb(Eval(cfg, st, e).res))
    decreases e, 0
  {
    hide Calls, Set, Read, Onward;
    match e {
      case Observe(verb, args) =>
        if verb in cfg.schemas.observe {
          var base := cfg.schemas.observe[verb];
          var a := EvalArgs(cfg, st, args, base);
          ArgsCalls(cfg, x, st, args, base);
          ArgsOnward(cfg, st, args, base);
          if a.res.Ok? {
            ReadCalls(cfg, x, st, a.st, verb, ReadArg(a.res.value.vals), a.res.value.taint);
          }
        } else {
          NoCalls(cfg, x, st, st, None);
        }
      case Pure(func, args) =>
        var a := EvalArgs(cfg, st, args, PUBLIC);
        ArgsCalls(cfg, x, st, args, PUBLIC);
        ArgsOnward(cfg, st, args, PUBLIC);
        if a.res.Ok? {
          var arg := Object([("func", Text(func)), ("args", List(a.res.value.vals))]);
          ReadCalls(cfg, x, st, a.st, COMPUTE, arg, a.res.value.taint);
        }
      case Const(v) => NoCalls(cfg, x, st, st, None);
      case Var(_) => NoCalls(cfg, x, st, st, None);
      case Index(base, i) => EvalCalls(cfg, x, st, base);
    }
  }

  lemma {:induction false} ArgsCalls(cfg: Config, x: Setting, st: RunState, args: seq<Expr>, base: Label)
    requires Set(cfg, x, st) && st.calls == |st.asked| && ArgsDemand(args) <= x.reach
    ensures Calls(cfg, x, st, EvalArgs(cfg, st, args, base).st, StopVerb(EvalArgs(cfg, st, args, base).res))
    decreases args, 0
  {
    hide Calls, Set, Eval, Onward;
    if args == [] {
      NoCalls(cfg, x, st, st, None);
    } else {
      var n := |args| - 1;
      var a := EvalArgs(cfg, st, args[..n], base);
      ArgsCalls(cfg, x, st, args[..n], base);
      if a.res.Ok? {
        ArgsOnward(cfg, st, args[..n], base);
        SetAfter(cfg, x, st, a.st);
        CallsCount(cfg, x, st, a.st, None);
        EvalCalls(cfg, x, a.st, args[n]);
        EvalOnward(cfg, a.st, args[n]);
        var b := Eval(cfg, a.st, args[n]);
        CallsAdd(cfg, x, st, a.st, b.st, StopVerb(b.res));
      }
    }
  }

  lemma CallsCount(cfg: Config, x: Setting, a: RunState, b: RunState, stop: Option<VerbId>)
    requires Calls(cfg, x, a, b, stop)
    ensures b.calls == |b.asked|
  {
  }

  lemma {:induction false} GuardCalls(cfg: Config, x: Setting, st: RunState, g: Guard)
    requires Set(cfg, x, st) && st.calls == |st.asked| && GuardDemand(g) <= x.reach
    ensures Calls(cfg, x, st, EvalGuard(cfg, st, g).st, StopVerb(EvalGuard(cfg, st, g).res))
    decreases g, 1
  {
    hide Calls, Set, Eval, Onward;
    match g {
      case Exists(e) => EvalCalls(cfg, x, st, e);
      case Matches(e, _) => EvalCalls(cfg, x, st, e);
      case Cmp(l, _, r) =>
        EvalCalls(cfg, x, st, l);
        var a := Eval(cfg, st, l);
        if a.res.Ok? {
          EvalOnward(cfg, st, l);
          SetAfter(cfg, x, st, a.st);
          CallsCount(cfg, x, st, a.st, None);
          EvalCalls(cfg, x, a.st, r);
          EvalOnward(cfg, a.st, r);
          var b := Eval(cfg, a.st, r);
          CallsAdd(cfg, x, st, a.st, b.st, StopVerb(b.res));
        }
      case And(_, _) => PairCalls(cfg, x, st, g);
      case Or(_, _) => PairCalls(cfg, x, st, g);
      case Not(h) => GuardCalls(cfg, x, st, h);
    }
  }

  lemma {:induction false} PairCalls(cfg: Config, x: Setting, st: RunState, g: Guard)
    requires g.And? || g.Or?
    requires Set(cfg, x, st) && st.calls == |st.asked| && GuardDemand(g) <= x.reach
    ensures Calls(cfg, x, st, EvalGuard(cfg, st, g).st, StopVerb(EvalGuard(cfg, st, g).res))
    decreases g, 0
  {
    hide Calls, Set, Onward;
    GuardCalls(cfg, x, st, g.l);
    var a := EvalGuard(cfg, st, g.l);
    if a.res.Ok? {
      GuardOnward(cfg, st, g.l);
      SetAfter(cfg, x, st, a.st);
      CallsCount(cfg, x, st, a.st, None);
      GuardCalls(cfg, x, a.st, g.r);
      GuardOnward(cfg, a.st, g.r);
      var b := EvalGuard(cfg, a.st, g.r);
      CallsAdd(cfg, x, st, a.st, b.st, StopVerb(b.res));
    }
  }

  // An effect's own verb is demanded, so its call stops nothing by being left out.
  lemma {:induction false} EmitCalls(cfg: Config, x: Setting, st: RunState, v: VerbId, target: Name, arg: Value,
                                     low: Label, remaining: nat)
    requires Set(cfg, x, st) && st.calls == |st.asked| && v in x.reach && v in x.demand
    ensures Calls(cfg, x, st, Emit(cfg, st, v, target, arg, low, remaining).st, None)
    decreases |st.signals|
  {
    hide Calls, Set, Gated, Onward, Park, EntryOk, Held;
    var after := InvokeState(cfg, st, v);
    InvokeCalls(cfg, x, st, v, arg);
    InvokeOnward(cfg, st, v);
    SetAfter(cfg, x, st, after);
    match Invoke(cfg, st, v, arg) {
      case Got(_) =>
        HeldSelf(after.grants);
        CallsFrame(cfg, x, st, after, Logged(after, v, target, low), None);
      case CallBroke =>
      case GateRefused =>
        if CurrentMode(st).Escalate? {
          ParkOnward(after);
          ParkAsksNothing(after);
          var p := Park(after);
          CallsFrame(cfg, x, st, after, p.st, None);
          if p.res.Ok? {
            ParkConsumes(after);
            SetAfter(cfg, x, after, p.st);
            CallsCount(cfg, x, st, p.st, None);
            EmitCalls(cfg, x, p.st, v, target, arg, low, remaining);
            EmitOnward(cfg, p.st, v, target, arg, low, remaining);
            CallsAdd(cfg, x, st, p.st, Emit(cfg, p.st, v, target, arg, low, remaining).st, None);
          }
        }
    }
  }

  lemma HeldSelf(grants: seq<Grant>)
    ensures Held(grants, grants)
  {
  }

  lemma ParkAsksNothing(st: RunState)
    ensures Park(st).st.calls == st.calls && Park(st).st.asked == st.asked && Held(st.grants, Park(st).st.grants)
  {
    hide Mint;
    ParkOnward(st);
  }

  lemma EffectCalls(cfg: Config, x: Setting, st: RunState, v: VerbId, args: seq<Expr>, pc: Label, remaining: nat)
    requires Set(cfg, x, st) && st.calls == |st.asked| && v in x.reach && v in x.demand && ArgsDemand(args) <= x.reach
    ensures var r := ExecEffect(cfg, st, v, args, pc, remaining);
            Calls(cfg, x, st, r.st, StopVerb(r.res))
  {
    hide Calls, Set, EvalArgs, Emit, Onward, NextNum;
    ArgsCalls(cfg, x, st, args, pc);
    var a := EvalArgs(cfg, st, args, pc);
    if a.res.Ok? {
      ArgsOnward(cfg, st, args, pc);
      SetAfter(cfg, x, st, a.st);
      CallsCount(cfg, x, st, a.st, None);
      var arg, low := EffectArg(a.res.value.vals), a.res.value.taint;
      var r := ExecEffect(cfg, st, v, args, pc, remaining);
      if !cfg.withhold(v, arg) {
        EmitCalls(cfg, x, a.st, v, cfg.target(v, arg), arg, low, remaining);
        EmitOnward(cfg, a.st, v, cfg.target(v, arg), arg, low, remaining);
        CallsAdd(cfg, x, st, a.st, Emit(cfg, a.st, v, cfg.target(v, arg), arg, low, remaining).st, None);
      }
      HeldSelf(a.st.grants);
      CallsFrame(cfg, x, st, a.st, Withhold(cfg, a.st, v, arg, low).st, None);
      CallsWeaken(cfg, x, st, r.st, None, StopVerb(r.res));
    }
  }

  lemma {:induction false} ListCalls(cfg: Config, x: Setting, st: RunState, stmts: seq<Stmt>, pc: Label, total: nat)
    requires |stmts| <= total && Set(cfg, x, st) && st.calls == |st.asked|
    requires Reachable(stmts) <= x.reach && EffectVerbs(stmts) <= x.demand
    ensures var r := ExecList(cfg, st, stmts, pc, total);
            Calls(cfg, x, st, r.st, StopVerb(r.res))
    decreases stmts, 0
  {
    hide Calls, Set, ExecStmt, Onward;
    if stmts == [] {
      NoCalls(cfg, x, st, st, None);
    } else {
      var n := |stmts| - 1;
      var front := ExecList(cfg, st, stmts[..n], pc, total);
      ListCalls(cfg, x, st, stmts[..n], pc, total);
      if front.res.Ok? {
        ListOnward(cfg, st, stmts[..n], pc, total);
        SetAfter(cfg, x, st, front.st);
        CallsCount(cfg, x, st, front.st, None);
        StmtCalls(cfg, x, front.st, stmts[n], pc, total - n);
        StmtOnward(cfg, front.st, stmts[n], pc, total - n);
        var last := ExecStmt(cfg, front.st, stmts[n], pc, total - n);
        CallsAdd(cfg, x, st, front.st, last.st, StopVerb(last.res));
      }
    }
  }

  lemma {:induction false} StmtCalls(cfg: Config, x: Setting, st: RunState, s: Stmt, pc: Label, remaining: nat)
    requires Set(cfg, x, st) && st.calls == |st.asked|
    requires StmtDemand(s) + StmtArgReads(s) <= x.reach && StmtEffectVerbs(s) <= x.demand
    ensures var r := ExecStmt(cfg, st, s, pc, remaining);
            Calls(cfg, x, st, r.st, StopVerb(r.res))
    decreases s, 1
  {
    hide Calls, Set, Eval, ExecEffect, Onward;
    var st1 := st.(steps := st.steps + 1);
    Still(st, st1);
    SetAfter(cfg, x, st, st1);
    match s {
      case Let(_, e) =>
        EvalCalls(cfg, x, st1, e);
        EvalOnward(cfg, st1, e);
        var a := Eval(cfg, st1, e);
        FromStep(cfg, x, st, st1, a.st, StopVerb(a.res));
        HeldSelf(a.st.grants);
        CallsFrame(cfg, x, st, a.st, ExecStmt(cfg, st, s, pc, remaining).st, StopVerb(a.res));
      case Effect(verb, args) =>
        assert verb in StmtEffectVerbs(s);
        EffectCalls(cfg, x, st1, verb, args, pc, remaining);
        EffectOnward(cfg, st1, verb, args, pc, remaining);
        var r := ExecEffect(cfg, st1, verb, args, pc, remaining);
        FromStep(cfg, x, st, st1, r.st, StopVerb(r.res));
      case If(_, _, _) => IfCalls(cfg, x, st, s, pc, remaining);
      case Foreach(_, _, _, _, _) => LoopCalls(cfg, x, st, s, pc, remaining);
    }
  }

  // Counting a step asks for nothing.
  lemma FromStep(cfg: Config, x: Setting, st: RunState, st1: RunState, b: RunState, stop: Option<VerbId>)
    requires st.calls == |st.asked| && st1.calls == st.calls && st1.asked == st.asked
    requires Calls(cfg, x, st1, b, stop) && Onward(st1, b)
    ensures Calls(cfg, x, st, b, stop)
  {
    hide Calls, Onward;
    NoCalls(cfg, x, st, st1, None);
    CallsAdd(cfg, x, st, st1, b, stop);
  }

  lemma {:induction false} IfCalls(cfg: Config, x: Setting, st: RunState, s: Stmt, pc: Label, remaining: nat)
    requires s.If? && Set(cfg, x, st) && st.calls == |st.asked|
    requires StmtDemand(s) + StmtArgReads(s) <= x.reach && StmtEffectVerbs(s) <= x.demand
    ensures var r := ExecStmt(cfg, st, s, pc, remaining);
            Calls(cfg, x, st, r.st, StopVerb(r.res))
    decreases s, 0
  {
    hide Calls, Set, EvalGuard, ExecList, Onward;
    var st1 := st.(steps := st.steps + 1);
    Still(st, st1);
    SetAfter(cfg, x, st, st1);
    GuardCalls(cfg, x, st1, s.guard);
    GuardOnward(cfg, st1, s.guard);
    var v := EvalGuard(cfg, st1, s.guard);
    FromStep(cfg, x, st, st1, v.st, StopVerb(v.res));
    if v.res.Ok? {
      var arm, pc2 := if v.res.value.holds then s.thenArm else s.elseArm, pc.Join(v.res.value.taint);
      SetAfter(cfg, x, st1, v.st);
      CallsCount(cfg, x, st, v.st, None);
      ListCalls(cfg, x, v.st, arm, pc2, |arm|);
      ListOnward(cfg, v.st, arm, pc2, |arm|);
      var r := ExecList(cfg, v.st, arm, pc2, |arm|);
      CallsAdd(cfg, x, st, v.st, r.st, StopVerb(r.res));
      assert ExecStmt(cfg, st, s, pc, remaining) == r;
    }
  }

  lemma {:induction false} LoopCalls(cfg: Config, x: Setting, st: RunState, s: Stmt, pc: Label, remaining: nat)
    requires s.Foreach? && Set(cfg, x, st) && st.calls == |st.asked|
    requires StmtDemand(s) + StmtArgReads(s) <= x.reach && StmtEffectVerbs(s) <= x.demand
    ensures var r := ExecStmt(cfg, st, s, pc, remaining);
            Calls(cfg, x, st, r.st, StopVerb(r.res))
    decreases s, 0
  {
    hide Calls, Set, Eval, ExecItems, Onward, Park;
    var st1 := st.(steps := st.steps + 1);
    Still(st, st1);
    SetAfter(cfg, x, st, st1);
    EvalCalls(cfg, x, st1, s.list);
    EvalOnward(cfg, st1, s.list);
    var l := Eval(cfg, st1, s.list);
    FromStep(cfg, x, st, st1, l.st, StopVerb(l.res));
    if l.res.Ok? {
      var items, taint := l.res.value.value.Items(), l.res.value.taint;
      var admitted := Admitted(l.st, |items|, s.bound, s.mode);
      AdmittedCalls(cfg, x, st, l.st, |items|, s.bound, s.mode);
      SetAfter(cfg, x, st1, l.st);
      if admitted.res.Ok? {
        var inner := admitted.st.(modes := admitted.st.modes + [s.mode]);
        OnwardFrame(l.st, admitted.st, inner);
        SetAfter(cfg, x, l.st, inner);
        HeldSelf(inner.grants);
        CallsFrame(cfg, x, st, admitted.st, inner, None);
        CallsCount(cfg, x, st, inner, None);
        var taken := items[..admitted.res.value];
        ItemsCalls(cfg, x, inner, s.item, taken, taint, s.body, pc.Join(taint));
        ItemsOnward(cfg, inner, s.item, taken, taint, s.body, pc.Join(taint));
        var r := ExecItems(cfg, inner, s.item, taken, taint, s.body, pc.Join(taint));
        CallsAdd(cfg, x, st, inner, r.st, StopVerb(r.res));
        HeldSelf(r.st.grants);
        CallsFrame(cfg, x, st, r.st, r.st.(modes := PopMode(r.st.modes)), StopVerb(r.res));
      }
    }
  }

  lemma AdmittedCalls(cfg: Config, x: Setting, st: RunState, a: RunState, n: nat, bound: nat, mode: Mode)
    requires Calls(cfg, x, st, a, None)
    ensures var r := Admitted(a, n, bound, mode);
            && Onward(a, r.st) && Calls(cfg, x, st, r.st, StopVerb(r.res)) && Calls(cfg, x, st, r.st, None)
  {
    hide Calls, Park;
    ParkOnward(a);
    ParkAsksNothing(a);
    ParkCallsNothing(a);
    Still(a, a);
    HeldSelf(a.grants);
    var r := Admitted(a, n, bound, mode);
    CallsFrame(cfg, x, st, a, r.st, None);
  }

  lemma ParkCallsNothing(st: RunState)
    ensures StopVerb(Park(st).res) == None
  {
    hide Mint, Only;
  }

  lemma {:induction false} ItemsCalls(cfg: Config, x: Setting, st: RunState, item: Name, items: seq<Value>,
                                      taint: Label, body: seq<Stmt>, pc: Label)
    requires Set(cfg, x, st) && st.calls == |st.asked|
    requires Reachable(body) <= x.reach && EffectVerbs(body) <= x.demand
    ensures var r := ExecItems(cfg, st, item, items, taint, body, pc);
            Calls(cfg, x, st, r.st, StopVerb(r.res))
    decreases body, |items| + 2
  {
    hide Calls, Set, ExecList, Onward;
    if items == [] {
      NoCalls(cfg, x, st, st, None);
    } else {
      var n := |items| - 1;
      var front := ExecItems(cfg, st, item, items[..n], taint, body, pc);
      ItemsCalls(cfg, x, st, item, items[..n], taint, body, pc);
      if front.res.Ok? {
        var next := front.st.(env := front.st.env[item := Tagged(items[n], taint)]);
        ItemsOnward(cfg, st, item, items[..n], taint, body, pc);
        OnwardFrame(st, front.st, next);
        SetAfter(cfg, x, st, next);
        HeldSelf(next.grants);
        CallsFrame(cfg, x, st, front.st, next, None);
        CallsCount(cfg, x, st, next, None);
        ListCalls(cfg, x, next, body, pc, |body|);
        ListOnward(cfg, next, body, pc, |body|);
        var r := ExecList(cfg, next, body, pc, |body|);
        CallsAdd(cfg, x, st, next, r.st, StopVerb(r.res));
      }
    }
  }

  // ----- whole runs -----

  lemma StartedSet(cfg: Config, x: Setting, stmts: seq<Stmt>, c: Consent, signals: seq<Signal>)
    requires x.demand == VerbDemand(stmts)
    requires Timely(cfg, c, 0, 0, x.lasts) && (x.alone ==> NeverResumed(signals))
    ensures Set(cfg, x, Started(stmts, c, signals))
  {
    hide Mint, Timely, InTime, Covers;
    var st := Started(stmts, c, signals);
    assert [] + st.grants == st.grants;
    forall v
      ensures Covers(st.grants[0], v) <==> v in x.demand
    {
      MintCovers(VerbDemand(stmts), c.budget, c.Expires(), v);
    }
    MintInTime(cfg, c, VerbDemand(stmts), c.budget, [], 0, x.lasts);
  }

  lemma RunCalls(cfg: Config, stmts: seq<Stmt>, c: Consent, signals: seq<Signal>, x: Setting)
    requires x.demand == VerbDemand(stmts) && x.reach == Reachable(stmts)
    requires Timely(cfg, c, 0, 0, x.lasts) && (x.alone ==> NeverResumed(signals))
    ensures var r := RunOf(cfg, stmts, c, signals);
            Calls(cfg, x, Started(stmts, c, signals), r.st, StopVerb(r.res))
  {
    hide Set, Calls, Timely, ExecList;
    StartedSet(cfg, x, stmts, c, signals);
    EffectsDemanded(stmts);
    ListCalls(cfg, x, Started(stmts, c, signals), stmts, PUBLIC, |stmts|);
  }

  // Every call of every run is for a verb the plan may reach, and a call that passed the gate
  // did so under a capability that was live and within its time at that very call.
  lemma CallsInForce(cfg: Config, stmts: seq<Stmt>, c: Consent, signals: seq<Signal>, i: nat)
    requires i < |RunOf(cfg, stmts, c, signals).st.asked|
    ensures var end := RunOf(cfg, stmts, c, signals).st;
            && end.asked[i].verb in Reachable(stmts)
            && (end.asked[i].reply.Passed? ==> exists k: nat :: InForce(cfg, i, end.grants, k, end.asked[i].verb))
  {
    hide ExecBlock;
    RunCalls(cfg, stmts, c, signals, Setting(VerbDemand(stmts), Reachable(stmts), 0, false));
  }

  // While the minted capabilities last, no call for a demanded verb misses its capability; so
  // if effects read nothing that is not demanded, no call of any run does.
  lemma DemandedFound(cfg: Config, stmts: seq<Stmt>, c: Consent, signals: seq<Signal>, i: nat)
    requires i < |RunOf(cfg, stmts, c, signals).st.asked| && Timely(cfg, c, 0, 0, i + 1)
    ensures var asked := RunOf(cfg, stmts, c, signals).st.asked;
            && (asked[i].verb in VerbDemand(stmts) ==> !asked[i].reply.Missing?)
            && (ArgReads(stmts) <= VerbDemand(stmts) ==> !asked[i].reply.Missing?)
  {
    hide ExecBlock, Timely;
    RunCalls(cfg, stmts, c, signals, Setting(VerbDemand(stmts), Reachable(stmts), i + 1, false));
  }

  // Unless the run is resumed, a call for a verb outside the demand always misses, is the last
  // call, and stops the run at that verb.
  lemma UndemandedStops(cfg: Config, stmts: seq<Stmt>, c: Consent, signals: seq<Signal>, i: nat)
    requires EscalateFree(stmts) || NeverResumed(signals)
    requires i < |RunOf(cfg, stmts, c, signals).st.asked|
    ensures var r := RunOf(cfg, stmts, c, signals);
            var asked := r.st.asked;
            asked[i].verb !in VerbDemand(stmts) ==>
              && asked[i].reply.Missing? && asked[i].verb in ArgReads(stmts) && i == |asked| - 1
              && r.res.Err? && r.res.error == FailStop(CallFailed(asked[i].verb))
  {
    hide ExecBlock, EscalateFree;
    if NeverResumed(signals) {
      RunCalls(cfg, stmts, c, signals, Setting(VerbDemand(stmts), Reachable(stmts), 0, true));
    } else {
      SignalsUnread(cfg, Started(stmts, c, []), stmts, signals);
      RunCalls(cfg, stmts, c, [], Setting(VerbDemand(stmts), Reachable(stmts), 0, true));
    }
  }

  // The budget guarantee, call by call: while the minted capabilities last and what the consent
  // counts suffices, reads included, a call passes the gate exactly when its verb is demanded,
  // and misses its capability otherwise. No call is ever refused for budget.
  lemma CallsDecided(cfg: Config, stmts: seq<Stmt>, c: Consent, signals: seq<Signal>, i: nat)
    requires Startable(stmts, cfg.schemas, c) && EscalateFree(stmts)
    requires Timely(cfg, c, 0, 0, RunOf(cfg, stmts, c, signals).st.calls) && Suffices(stmts, c, VerbDemand(stmts))
    requires i < |RunOf(cfg, stmts, c, signals).st.asked|
    ensures var asked := RunOf(cfg, stmts, c, signals).st.asked;
            asked[i].reply == if asked[i].verb in VerbDemand(stmts) then Passed else Missing
  {
    hide ExecBlock, EscalateFree, Timely, Suffices, Startable, RunOf;
    AdmittedRun(cfg, stmts, c, signals);
    UndemandedStops(cfg, stmts, c, signals, i);
  }
}
