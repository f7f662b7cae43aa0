// A run whose counted verbs are funded: every call for them passes the gate.

module PlanFunds {
  import opened Prelude
  import opened PlanShapes
  import opened PlanIr
  import opened PlanCheck
  import opened PlanSemantics
  import opened PlanFrames
  import opened PlanBudget
  import C = Coeffect

  // ----- what a run is given -----

  datatype Fund = Fund(k: nat, verbs: set<VerbId>, hi: nat)

  // Grant `k` lasts through the calls before `hi`, and each of `verbs` is uncounted there or funded.
  ghost predicate Backed(cfg: Config, x: Fund, st: RunState, need: Need) {
    InTime(cfg, st.grants, x.k, 0, x.hi) && forall v :: v in x.verbs ==> Able(st.grants, x.k, v, need(v))
  }

  lemma BackedAfter(cfg: Config, x: Fund, a: RunState, b: RunState, all: Need, first: Need, rest: Need)
    requires Backed(cfg, x, a, all) && Onward(a, b) && Costs(x.k, a, b, first)
    requires forall v :: first(v) + rest(v) <= all(v)
    ensures Backed(cfg, x, b, rest)
  {
    StillInTime(cfg, a.grants, b.grants, x.k, 0, x.hi);
    forall v | v in x.verbs
      ensures Able(b.grants, x.k, v, rest(v))
    {
      assert Able(a.grants, x.k, v, all(v));
      assert SameTerms(a.grants[x.k], b.grants[x.k]);
      assert Left(a.grants, x.k, v) <= Left(b.grants, x.k, v) + first(v);
    }
  }

  // Only the grants matter.
  lemma BackedFrame(cfg: Config, x: Fund, a: RunState, b: RunState, all: Need, rest: Need)
    requires Backed(cfg, x, a, all) && a.grants == b.grants && forall v :: rest(v) <= all(v)
    ensures Backed(cfg, x, b, rest)
  {
    hide InTime;
  }

  // ----- what it does with it -----

  // Every new call for one of the verbs passed the gate.
  ghost predicate Served(x: Fund, a: RunState, b: RunState) {
    && a.asked <= b.asked
    && forall i :: |a.asked| <= i < |b.asked| && b.asked[i].verb in x.verbs ==> b.asked[i].reply.Passed?
  }

  lemma ServedNothing(x: Fund, a: RunState, b: RunState)
    requires b.asked == a.asked
    ensures Served(x, a, b)
  {
  }

  lemma ServedAdd(x: Fund, a: RunState, b: RunState, c: RunState)
    requires Served(x, a, b) && Served(x, b, c)
    ensures Served(x, a, c)
  {
    forall i | |a.asked| <= i < |c.asked| && c.asked[i].verb in x.verbs
      ensures c.asked[i].reply.Passed?
    {
      assert i < |b.asked| ==> b.asked[i] == c.asked[i];
    }
  }

  // Only the calls matter.
  lemma ServedFrame(x: Fund, a: RunState, b: RunState, c: RunState)
    requires Served(x, a, b) && c.asked == b.asked
    ensures Served(x, a, c)
  {
  }

  lemma InvokeServed(cfg: Config, x: Fund, st: RunState, v: VerbId)
    requires Backed(cfg, x, st, Once(v)) && st.calls < x.hi
    ensures Served(x, st, InvokeState(cfg, st, v))
    ensures v in x.verbs ==> Gated(cfg, st, v).Open?
  {
    hide Exercise, Able, Lasting;
    GatePays(cfg, st.calls, st.grants, v, x.k);
    if v in x.verbs {
      assert Once(v)(v) == 1;
    }
  }

  // ----- reads -----

  lemma {:induction false} EvalServed(cfg: Config, x: Fund, st: RunState, e: Expr)
    requires Backed(cfg, x, st, ExprNeed(e)) && Eval(cfg, st, e).st.calls <= x.hi
    ensures Served(x, st, Eval(cfg, st, e).st)
    decreases e, 0
  {
    hide Gated, Backed, Served, Costs, Onward;
    ServedNothing(x, st, st);
    match e {
      case Observe(verb, args) =>
        if verb in cfg.schemas.observe {
          CallServed(cfg, x, st, args, cfg.schemas.observe[verb], verb, ExprNeed(e));
        }
      case Pure(func, args) => CallServed(cfg, x, st, args, PUBLIC, COMPUTE, ExprNeed(e));
      case Const(_) =>
      case Var(_) =>
      case Index(base, _) =>
        BackedFrame(cfg, x, st, st, ExprNeed(e), ExprNeed(base));
        EvalServed(cfg, x, st, base);
    }
  }

  // The arguments, and then the call itself if they have values.
  lemma {:induction false} CallServed(cfg: Config, x: Fund, st: RunState, args: seq<Expr>, base: Label,
                                      v: VerbId, need: Need)
    requires Backed(cfg, x, st, need) && forall u :: ArgsReads(args, u) + Once(v)(u) <= need(u)
    requires var a := EvalArgs(cfg, st, args, base);
             && a.st.calls <= x.hi && (a.res.Ok? ==> InvokeState(cfg, a.st, v).calls <= x.hi)
    ensures var a := EvalArgs(cfg, st, args, base);
            && Served(x, st, a.st) && (a.res.Ok? ==> Served(x, st, InvokeState(cfg, a.st, v)))
    decreases args, 1
  {
    hide Gated, Backed, Served, Costs, Onward, EvalArgs;
    BackedFrame(cfg, x, st, st, need, ArgsNeed(args));
    ArgsServed(cfg, x, st, args, base);
    var a := EvalArgs(cfg, st, args, base);
    if a.res.Ok? {
      ArgsCosts(cfg, st, args, base, x.k);
      ArgsOnward(cfg, st, args, base);
      BackedAfter(cfg, x, st, a.st, need, ArgsNeed(args), Once(v));
      InvokeServed(cfg, x, a.st, v);
      ServedAdd(x, st, a.st, InvokeState(cfg, a.st, v));
    }
  }

  lemma {:induction false} ArgsServed(cfg: Config, x: Fund, st: RunState, args: seq<Expr>, base: Label)
    requires Backed(cfg, x, st, ArgsNeed(args)) && EvalArgs(cfg, st, args, base).st.calls <= x.hi
    ensures Served(x, st, EvalArgs(cfg, st, args, base).st)
    decreases args, 0
  {
    hide Eval, Backed, Served, Costs, Onward;
    if args == [] {
      ServedNothing(x, st, st);
    } else {
      var n := |args| - 1;
      var a := EvalArgs(cfg, st, args[..n], base);
      BackedFrame(cfg, x, st, st, ArgsNeed(args), ArgsNeed(args[..n]));
      if a.res.Ok? {
        EvalOnward(cfg, a.st, args[n]);
        OnwardCalls(a.st, Eval(cfg, a.st, args[n]).st);
      }
      ArgsServed(cfg, x, st, args[..n], base);
      if a.res.Ok? {
        ArgsCosts(cfg, st, args[..n], base, x.k);
        ArgsOnward(cfg, st, args[..n], base);
        BackedAfter(cfg, x, st, a.st, ArgsNeed(args), ArgsNeed(args[..n]), ExprNeed(args[n]));
        EvalServed(cfg, x, a.st, args[n]);
        ServedAdd(x, st, a.st, Eval(cfg, a.st, args[n]).st);
      }
    }
  }

  lemma OnwardCalls(a: RunState, b: RunState)
    requires Onward(a, b)
    ensures a.calls <= b.calls
  {
  }

  lemma {:induction false} GuardServed(cfg: Config, x: Fund, st: RunState, g: Guard)
    requires Backed(cfg, x, st, GuardNeed(g)) && EvalGuard(cfg, st, g).st.calls <= x.hi
    ensures Served(x, st, EvalGuard(cfg, st, g).st)
    decreases g, 1
  {
    hide Eval, Backed, Served, Costs, Onward;
    match g {
      case Exists(e) =>
        BackedFrame(cfg, x, st, st, GuardNeed(g), ExprNeed(e));
        EvalServed(cfg, x, st, e);
      case Matches(e, _) =>
        BackedFrame(cfg, x, st, st, GuardNeed(g), ExprNeed(e));
        EvalServed(cfg, x, st, e);
      case Cmp(l, _, r) =>
        var a := Eval(cfg, st, l);
        BackedFrame(cfg, x, st, st, GuardNeed(g), ExprNeed(l));
        if a.res.Ok? {
          EvalOnward(cfg, a.st, r);
          OnwardCalls(a.st, Eval(cfg, a.st, r).st);
        }
        EvalServed(cfg, x, st, l);
        if a.res.Ok? {
          EvalCosts(cfg, st, l, x.k);
          EvalOnward(cfg, st, l);
          BackedAfter(cfg, x, st, a.st, GuardNeed(g), ExprNeed(l), ExprNeed(r));
          EvalServed(cfg, x, a.st, r);
          ServedAdd(x, st, a.st, Eval(cfg, a.st, r).st);
        }
      case And(_, _) => PairServed(cfg, x, st, g);
      case Or(_, _) => PairServed(cfg, x, st, g);
      case Not(h) =>
        BackedFrame(cfg, x, st, st, GuardNeed(g), GuardNeed(h));
        GuardServed(cfg, x, st, h);
    }
  }

  lemma {:induction false} PairServed(cfg: Config, x: Fund, st: RunState, g: Guard)
    requires g.And? || g.Or?
    requires Backed(cfg, x, st, GuardNeed(g)) && EvalGuard(cfg, st, g).st.calls <= x.hi
    ensures Served(x, st, EvalGuard(cfg, st, g).st)
    decreases g, 0
  {
    hide Backed, Served, Costs, Onward;
    var a := EvalGuard(cfg, st, g.l);
    BackedFrame(cfg, x, st, st, GuardNeed(g), GuardNeed(g.l));
    if a.res.Ok? {
      GuardOnward(cfg, a.st, g.r);
      OnwardCalls(a.st, EvalGuard(cfg, a.st, g.r).st);
    }
    GuardServed(cfg, x, st, g.l);
    if a.res.Ok? {
      GuardCosts(cfg, st, g.l, x.k);
      GuardOnward(cfg, st, g.l);
      BackedAfter(cfg, x, st, a.st, GuardNeed(g), GuardNeed(g.l), GuardNeed(g.r));
      GuardServed(cfg, x, a.st, g.r);
      ServedAdd(x, st, a.st, EvalGuard(cfg, a.st, g.r).st);
    }
  }

  // ----- statements -----

  // The run did not stop for lack of budget at an effect, and was never suspended.
  predicate NeverShort(r: Run<()>) {
    r.res.Err? ==> r.res.error.FailStop? && !r.res.error.at.OutOfBudget? && !r.res.error.at.MintFailed?
  }

  ghost predicate Paid(x: Fund, st: RunState, r: Run<()>, need: Need) {
    NeverShort(r) && Costs(x.k, st, r.st, need) && Served(x, st, r.st)
  }

  lemma PaidAfter(x: Fund, a: RunState, b: RunState, r: Run<()>, first: Need, rest: Need, all: Need)
    requires Costs(x.k, a, b, first) && Served(x, a, b) && Paid(x, b, r, rest)
    requires forall v :: first(v) + rest(v) <= all(v)
    ensures Paid(x, a, r, all)
  {
    hide Costs, Served;
    CostsAdd(x.k, a, b, r.st, first, rest, all);
    ServedAdd(x, a, b, r.st);
  }

  // A read that failed stops the run, but not for budget.
  lemma ReadPaid(x: Fund, a: RunState, b: RunState, o: Outcome, first: Need, all: Need)
    requires Costs(x.k, a, b, first) && Served(x, a, b) && ReadFailure(o) && forall v :: first(v) <= all(v)
    ensures Paid(x, a, Run(b, Err(o)), all)
  {
    hide Costs, Served;
    CostsLess(x.k, a, b, b, first, all);
  }

  // Going on to a state with the same grants and calls.
  lemma DonePaid(x: Fund, a: RunState, b: RunState, c: RunState, first: Need, all: Need)
    requires Costs(x.k, a, b, first) && Served(x, a, b) && c.grants == b.grants && c.asked == b.asked
    requires forall v :: first(v) <= all(v)
    ensures Paid(x, a, Run(c, Ok(())), all)
  {
    hide Costs, Served;
    CostsLess(x.k, a, b, c, first, all);
    ServedFrame(x, a, b, c);
  }

  // Counting a step costs nothing and asks for nothing.
  lemma StepPaid(x: Fund, st: RunState, st1: RunState, r: Run<()>, need: Need)
    requires st1.grants == st.grants && st1.asked == st.asked && Paid(x, st1, r, need)
    ensures Paid(x, st, r, need)
  {
    hide Costs, Served;
    CostsNothing(x.k, st, st1, Nothing());
    ServedNothing(x, st, st1);
    PaidAfter(x, st, st1, r, Nothing(), need, need);
  }

  lemma EmitPaid(cfg: Config, x: Fund, st: RunState, v: VerbId, target: Name, arg: Value, low: Label, remaining: nat)
    requires v in x.verbs && Backed(cfg, x, st, Once(v))
    requires Emit(cfg, st, v, target, arg, low, remaining).st.calls <= x.hi
    ensures Paid(x, st, Emit(cfg, st, v, target, arg, low, remaining), Once(v))
  {
    hide Backed, Gated, Costs, Served, Onward;
    var r := Emit(cfg, st, v, target, arg, low, remaining);
    EmitCallsOnce(cfg, st, v, target, arg, low, remaining);
    InvokeServed(cfg, x, st, v);
    InvokeCosts(cfg, st, v, x.k);
    var after := InvokeState(cfg, st, v);
    assert r.st.grants == after.grants && r.st.asked == after.asked;
    CostsLess(x.k, st, after, r.st, Once(v), Once(v));
    ServedFrame(x, st, after, r.st);
  }

  lemma EmitCallsOnce(cfg: Config, st: RunState, v: VerbId, target: Name, arg: Value, low: Label, remaining: nat)
    ensures st.calls < Emit(cfg, st, v, target, arg, low, remaining).st.calls
  {
    hide Gated, Park, Onward;
    var after := InvokeState(cfg, st, v);
    if Invoke(cfg, st, v, arg).GateRefused? && CurrentMode(st).Escalate? {
      ParkOnward(after);
      OnwardCalls(after, Park(after).st);
      if Park(after).res.Ok? {
        EmitOnward(cfg, Park(after).st, v, target, arg, low, remaining);
        ParkConsumes(after);
        OnwardCalls(Park(after).st, Emit(cfg, Park(after).st, v, target, arg, low, remaining).st);
      }
    }
  }

  lemma EffectPaid(cfg: Config, x: Fund, st: RunState, v: VerbId, args: seq<Expr>, pc: Label, remaining: nat)
    requires v in x.verbs && Backed(cfg, x, st, StmtNeeds(Effect(v, args)))
    requires ExecEffect(cfg, st, v, args, pc, remaining).st.calls <= x.hi
    ensures Paid(x, st, ExecEffect(cfg, st, v, args, pc, remaining), StmtNeeds(Effect(v, args)))
  {
    hide EvalArgs, Emit, Backed, Costs, Served, Onward, NextNum;
    var need := StmtNeeds(Effect(v, args));
    var a := EvalArgs(cfg, st, args, pc);
    var r := ExecEffect(cfg, st, v, args, pc, remaining);
    EffectCallsLater(cfg, st, v, args, pc, remaining);
    BackedFrame(cfg, x, st, st, need, ArgsNeed(args));
    ArgsServed(cfg, x, st, args, pc);
    ArgsCosts(cfg, st, args, pc, x.k);
    ArgsOnward(cfg, st, args, pc);
    ArgsFailure(cfg, st, args, pc);
    BackedAfter(cfg, x, st, a.st, need, ArgsNeed(args), Once(v));
    CostsLess(x.k, st, a.st, a.st, ArgsNeed(args), need);
    if a.res.Ok? {
      var arg, low := EffectArg(a.res.value.vals), a.res.value.taint;
      if External(cfg.schemas, v) && low.conf != {} {
      } else if cfg.withhold(v, arg) {
        CostsLess(x.k, st, a.st, r.st, ArgsNeed(args), need);
        ServedFrame(x, st, a.st, r.st);
      } else {
        EmitPaid(cfg, x, a.st, v, cfg.target(v, arg), arg, low, remaining);
        PaidAfter(x, st, a.st, r, ArgsNeed(args), Once(v), need);
      }
    }
  }

  lemma EffectCallsLater(cfg: Config, st: RunState, v: VerbId, args: seq<Expr>, pc: Label, remaining: nat)
    ensures EvalArgs(cfg, st, args, pc).st.calls <= ExecEffect(cfg, st, v, args, pc, remaining).st.calls
  {
    hide EvalArgs, Emit, NextNum, Onward;
    var a := EvalArgs(cfg, st, args, pc);
    if a.res.Ok? {
      var arg, low := EffectArg(a.res.value.vals), a.res.value.taint;
      EmitOnward(cfg, a.st, v, cfg.target(v, arg), arg, low, remaining);
      OnwardCalls(a.st, Emit(cfg, a.st, v, cfg.target(v, arg), arg, low, remaining).st);
    }
  }

  lemma {:induction false} ListPaid(cfg: Config, x: Fund, st: RunState, stmts: seq<Stmt>, pc: Label, total: nat)
    requires |stmts| <= total && EscalateFree(stmts) && EffectVerbs(stmts) <= x.verbs
    requires Backed(cfg, x, st, Needs(stmts)) && ExecList(cfg, st, stmts, pc, total).st.calls <= x.hi
    ensures Paid(x, st, ExecList(cfg, st, stmts, pc, total), Needs(stmts))
    decreases stmts, 0
  {
    hide ExecStmt, Costs, Backed, Served, Onward;
    if stmts == [] {
      CostsNothing(x.k, st, st, Needs(stmts));
      ServedNothing(x, st, st);
    } else {
      var n := |stmts| - 1;
      var front := ExecList(cfg, st, stmts[..n], pc, total);
      var last := ExecStmt(cfg, front.st, stmts[n], pc, total - n);
      StmtOnward(cfg, front.st, stmts[n], pc, total - n);
      OnwardCalls(front.st, last.st);
      BackedFrame(cfg, x, st, st, Needs(stmts), Needs(stmts[..n]));
      ListPaid(cfg, x, st, stmts[..n], pc, total);
      CostsLess(x.k, st, front.st, front.st, Needs(stmts[..n]), Needs(stmts));
      if front.res.Ok? {
        ListOnward(cfg, st, stmts[..n], pc, total);
        BackedAfter(cfg, x, st, front.st, Needs(stmts), Needs(stmts[..n]), StmtNeeds(stmts[n]));
        StmtPaid(cfg, x, front.st, stmts[n], pc, total - n);
        PaidAfter(x, st, front.st, last, Needs(stmts[..n]), StmtNeeds(stmts[n]), Needs(stmts));
      }
    }
  }

  lemma {:induction false} StmtPaid(cfg: Config, x: Fund, st: RunState, s: Stmt, pc: Label, remaining: nat)
    requires StmtEscalateFree(s) && StmtEffectVerbs(s) <= x.verbs
    requires Backed(cfg, x, st, StmtNeeds(s)) && ExecStmt(cfg, st, s, pc, remaining).st.calls <= x.hi
    ensures Paid(x, st, ExecStmt(cfg, st, s, pc, remaining), StmtNeeds(s))
    decreases s, 1
  {
    hide Eval, ExecEffect, Costs, Backed, Served, Onward;
    var st1 := st.(steps := st.steps + 1);
    BackedFrame(cfg, x, st, st1, StmtNeeds(s), StmtNeeds(s));
    match s {
      case Let(_, e) =>
        var a := Eval(cfg, st1, e);
        BackedFrame(cfg, x, st1, st1, StmtNeeds(s), ExprNeed(e));
        EvalServed(cfg, x, st1, e);
        EvalCosts(cfg, st1, e, x.k);
        ExprFailure(cfg, st1, e);
        var r := ExecStmt(cfg, st, s, pc, remaining);
        if a.res.Err? {
          ReadPaid(x, st1, a.st, a.res.error, ExprNeed(e), StmtNeeds(s));
        } else {
          DonePaid(x, st1, a.st, r.st, ExprNeed(e), StmtNeeds(s));
        }
        StepPaid(x, st, st1, r, StmtNeeds(s));
      case Effect(verb, args) =>
        assert verb in StmtEffectVerbs(s);
        EffectPaid(cfg, x, st1, verb, args, pc, remaining);
        StepPaid(x, st, st1, ExecEffect(cfg, st1, verb, args, pc, remaining), StmtNeeds(s));
      case If(_, _, _) => IfPaid(cfg, x, st, s, pc, remaining);
      case Foreach(_, _, _, _, _) => LoopPaid(cfg, x, st, s, pc, remaining);
    }
  }

  lemma {:induction false} IfPaid(cfg: Config, x: Fund, st: RunState, s: Stmt, pc: Label, remaining: nat)
    requires s.If? && StmtEscalateFree(s) && StmtEffectVerbs(s) <= x.verbs
    requires Backed(cfg, x, st, StmtNeeds(s)) && ExecStmt(cfg, st, s, pc, remaining).st.calls <= x.hi
    ensures Paid(x, st, ExecStmt(cfg, st, s, pc, remaining), StmtNeeds(s))
    decreases s, 0
  {
    hide EvalGuard, ExecList, Costs, Backed, Served, Onward;
    var st1 := st.(steps := st.steps + 1);
    var v := EvalGuard(cfg, st1, s.guard);
    var r := ExecStmt(cfg, st, s, pc, remaining);
    var arm := if v.res.Ok? && v.res.value.holds then s.thenArm else s.elseArm;
    var pc2 := if v.res.Ok? then pc.Join(v.res.value.taint) else pc;
    ListOnward(cfg, v.st, arm, pc2, |arm|);
    OnwardCalls(v.st, ExecList(cfg, v.st, arm, pc2, |arm|).st);
    BackedFrame(cfg, x, st, st1, StmtNeeds(s), StmtNeeds(s));
    BackedFrame(cfg, x, st1, st1, StmtNeeds(s), GuardNeed(s.guard));
    GuardServed(cfg, x, st1, s.guard);
    GuardCosts(cfg, st1, s.guard, x.k);
    GuardOnward(cfg, st1, s.guard);
    GuardFailure(cfg, st1, s.guard);
    if v.res.Err? {
      ReadPaid(x, st1, v.st, v.res.error, GuardNeed(s.guard), StmtNeeds(s));
    } else {
      BackedAfter(cfg, x, st1, v.st, StmtNeeds(s), GuardNeed(s.guard), Needs(arm));
      assert r == ExecList(cfg, v.st, arm, pc2, |arm|);
      ListPaid(cfg, x, v.st, arm, pc2, |arm|);
      PaidAfter(x, st1, v.st, r, GuardNeed(s.guard), Needs(arm), StmtNeeds(s));
    }
    StepPaid(x, st, st1, r, StmtNeeds(s));
  }

  // Rounds within the bound need no more than the loop was given.
  lemma LoopNeeds(s: Stmt, take: nat)
    requires s.Foreach? && take <= s.bound
    ensures forall v :: ExprNeed(s.list)(v) + RoundNeeds(take, s.body)(v) <= StmtNeeds(s)(v)
  {
    hide Occ, ReadOcc;
    forall v
      ensures ExprNeed(s.list)(v) + RoundNeeds(take, s.body)(v) <= StmtNeeds(s)(v)
    {
      var each := Occ(s.body, v) + ReadOcc(s.body, v);
      C.ScaleMonotone(take, s.bound, each, each);
      assert s.bound * each == s.bound * Occ(s.body, v) + s.bound * ReadOcc(s.body, v);
    }
  }

  lemma {:induction false} LoopPaid(cfg: Config, x: Fund, st: RunState, s: Stmt, pc: Label, remaining: nat)
    requires s.Foreach? && StmtEscalateFree(s) && StmtEffectVerbs(s) <= x.verbs
    requires Backed(cfg, x, st, StmtNeeds(s)) && ExecStmt(cfg, st, s, pc, remaining).st.calls <= x.hi
    ensures Paid(x, st, ExecStmt(cfg, st, s, pc, remaining), StmtNeeds(s))
    decreases s, 0
  {
    hide Eval, ExecItems, Costs, Backed, Served, Onward, StmtNeeds, RoundNeeds, ExprNeed;
    var st1 := st.(steps := st.steps + 1);
    var l := Eval(cfg, st1, s.list);
    var r := ExecStmt(cfg, st, s, pc, remaining);
    LoopNeeds(s, 0);
    LoopCallsLater(cfg, st, s, pc, remaining);
    BackedFrame(cfg, x, st, st1, StmtNeeds(s), StmtNeeds(s));
    BackedFrame(cfg, x, st1, st1, StmtNeeds(s), ExprNeed(s.list));
    EvalServed(cfg, x, st1, s.list);
    EvalCosts(cfg, st1, s.list, x.k);
    EvalOnward(cfg, st1, s.list);
    ExprFailure(cfg, st1, s.list);
    if l.res.Err? {
      ReadPaid(x, st1, l.st, l.res.error, ExprNeed(s.list), StmtNeeds(s));
    } else {
      RoundsPaid(cfg, x, st, s, pc, remaining);
    }
    StepPaid(x, st, st1, r, StmtNeeds(s));
  }

  lemma LoopCallsLater(cfg: Config, st: RunState, s: Stmt, pc: Label, remaining: nat)
    requires s.Foreach?
    ensures var st1 := st.(steps := st.steps + 1);
            Eval(cfg, st1, s.list).st.calls <= ExecStmt(cfg, st, s, pc, remaining).st.calls
  {
    hide Eval, ExecItems, Park, Onward;
    var st1 := st.(steps := st.steps + 1);
    var l := Eval(cfg, st1, s.list);
    ParkOnward(l.st);
    OnwardCalls(l.st, Park(l.st).st);
    if l.res.Ok? {
      var items, taint := l.res.value.value.Items(), l.res.value.taint;
      var admitted := Admitted(l.st, |items|, s.bound, s.mode);
      if admitted.res.Ok? {
        var inner := admitted.st.(modes := admitted.st.modes + [s.mode]);
        var taken := items[..admitted.res.value];
        ItemsOnward(cfg, inner, s.item, taken, taint, s.body, pc.Join(taint));
        OnwardCalls(inner, ExecItems(cfg, inner, s.item, taken, taint, s.body, pc.Join(taint)).st);
      }
    }
  }

  // The iterations of a loop whose list has a value.
  lemma {:induction false} RoundsPaid(cfg: Config, x: Fund, st: RunState, s: Stmt, pc: Label, remaining: nat)
    requires s.Foreach? && StmtEscalateFree(s) && StmtEffectVerbs(s) <= x.verbs
    requires var st1 := st.(steps := st.steps + 1);
             var l := Eval(cfg, st1, s.list);
             && l.res.Ok? && Backed(cfg, x, st1, StmtNeeds(s)) && Onward(st1, l.st)
             && Costs(x.k, st1, l.st, ExprNeed(s.list)) && Served(x, st1, l.st)
    requires ExecStmt(cfg, st, s, pc, remaining).st.calls <= x.hi
    ensures Paid(x, st.(steps := st.steps + 1), ExecStmt(cfg, st, s, pc, remaining), StmtNeeds(s))
    decreases s, 0, 0
  {
    hide Eval, ExecItems, Costs, Backed, Served, Onward, StmtNeeds, RoundNeeds, ExprNeed;
    var st1 := st.(steps := st.steps + 1);
    var l := Eval(cfg, st1, s.list);
    var r := ExecStmt(cfg, st, s, pc, remaining);
    var items, taint := l.res.value.value.Items(), l.res.value.taint;
    LoopNeeds(s, 0);
    CostsLess(x.k, st1, l.st, l.st, ExprNeed(s.list), StmtNeeds(s));
    if Admitted(l.st, |items|, s.bound, s.mode).res.Ok? {
      var take := Admitted(l.st, |items|, s.bound, s.mode).res.value;
      var inner := l.st.(modes := l.st.modes + [s.mode]);
      LoopNeeds(s, take);
      BackedAfter(cfg, x, st1, l.st, StmtNeeds(s), ExprNeed(s.list), RoundNeeds(take, s.body));
      BackedFrame(cfg, x, l.st, inner, RoundNeeds(take, s.body), RoundNeeds(take, s.body));
      var all := ExecItems(cfg, inner, s.item, items[..take], taint, s.body, pc.Join(taint));
      ItemsPaid(cfg, x, inner, s.item, items[..take], taint, s.body, pc.Join(taint));
      CostsLess(x.k, st1, l.st, inner, ExprNeed(s.list), ExprNeed(s.list));
      ServedFrame(x, st1, l.st, inner);
      PaidAfter(x, st1, inner, all, ExprNeed(s.list), RoundNeeds(take, s.body), StmtNeeds(s));
      CostsLess(x.k, st1, all.st, r.st, StmtNeeds(s), StmtNeeds(s));
      ServedFrame(x, st1, all.st, r.st);
    }
  }

  lemma {:induction false} ItemsPaid(cfg: Config, x: Fund, st: RunState, item: Name, items: seq<Value>, taint: Label,
                                     body: seq<Stmt>, pc: Label)
    requires EscalateFree(body) && EffectVerbs(body) <= x.verbs
    requires Backed(cfg, x, st, RoundNeeds(|items|, body))
    requires ExecItems(cfg, st, item, items, taint, body, pc).st.calls <= x.hi
    ensures Paid(x, st, ExecItems(cfg, st, item, items, taint, body, pc), RoundNeeds(|items|, body))
    decreases body, |items| + 2
  {
    hide ExecList, Costs, Backed, Served, Onward, Needs;
    if items == [] {
      CostsNothing(x.k, st, st, RoundNeeds(|items|, body));
      ServedNothing(x, st, st);
    } else {
      var n := |items| - 1;
      OneMoreRound(n, body);
      var front := ExecItems(cfg, st, item, items[..n], taint, body, pc);
      var next := front.st.(env := front.st.env[item := Tagged(items[n], taint)]);
      var last := ExecList(cfg, next, body, pc, |body|);
      ListOnward(cfg, next, body, pc, |body|);
      OnwardCalls(next, last.st);
      BackedFrame(cfg, x, st, st, RoundNeeds(|items|, body), RoundNeeds(n, body));
      ItemsPaid(cfg, x, st, item, items[..n], taint, body, pc);
      CostsLess(x.k, st, front.st, front.st, RoundNeeds(n, body), RoundNeeds(|items|, body));
      if front.res.Ok? {
        ItemsOnward(cfg, st, item, items[..n], taint, body, pc);
        OnwardFrame(st, front.st, next);
        CostsLess(x.k, st, front.st, next, RoundNeeds(n, body), RoundNeeds(n, body));
        ServedFrame(x, st, front.st, next);
        BackedAfter(cfg, x, st, next, RoundNeeds(|items|, body), RoundNeeds(n, body), Needs(body));
        ListPaid(cfg, x, next, body, pc, |body|);
        PaidAfter(x, st, next, last, RoundNeeds(n, body), Needs(body), RoundNeeds(|items|, body));
      }
    }
  }

  lemma OneMoreRound(n: nat, body: seq<Stmt>)
    ensures forall v :: RoundNeeds(n, body)(v) + Needs(body)(v) == RoundNeeds(n + 1, body)(v)
  {
    hide Occ, ReadOcc;
    forall v
      ensures RoundNeeds(n, body)(v) + Needs(body)(v) == RoundNeeds(n + 1, body)(v)
    {
      var each := Occ(body, v) + ReadOcc(body, v);
      assert n * each + each == (n + 1) * each;
    }
  }
}
