// The machine and the meaning agree: from any state, the code of a plan ends in exactly the state
// and outcome that the meaning gives.

module PlanMachineRuns {
  import opened Prelude
  import opened PlanShapes
  import opened PlanIr
  import opened PlanCheck
  import opened PlanSemantics
  import opened PlanMachine

  // ----- where an expression, a guard, a statement leads -----

  // Its value on the stack, or the stop it runs into.
  ghost predicate LeadsTo(cfg: Config, m: Machine, r: Run<Tagged>, k: Code, vs: seq<Tagged>) {
    match r.res
    case Ok(t) => Reaches(cfg, m, Going(r.st, k, vs + [t]))
    case Err(o) => Reaches(cfg, m, Halt(r.st, o))
  }

  ghost predicate GuardLeadsTo(cfg: Config, m: Machine, r: Run<Verdict>, k: Code, vs: seq<Tagged>) {
    match r.res
    case Ok(v) => Reaches(cfg, m, Going(r.st, k, vs + [Tagged(Flag(v.holds), v.taint)]))
    case Err(o) => Reaches(cfg, m, Halt(r.st, o))
  }

  ghost predicate EndsAs(cfg: Config, m: Machine, r: Run<()>, k: Code, vs: seq<Tagged>) {
    match r.res
    case Ok(_) => Reaches(cfg, m, Going(r.st, k, vs))
    case Err(o) => Reaches(cfg, m, Halt(r.st, o))
  }

  // The arguments on the stack, in order, with the values and the label the meaning collects.
  ghost predicate ArgsLeadTo(cfg: Config, m: Machine, r: Run<Args>, base: Label, k: Code, vs: seq<Tagged>, n: nat,
                             ts: seq<Tagged>) {
    match r.res
    case Ok(x) =>
      && |ts| == n && Values(ts) == x.vals && Taints(base, ts) == x.taint
      && Reaches(cfg, m, Going(r.st, k, vs + ts))
    case Err(o) => Reaches(cfg, m, Halt(r.st, o))
  }

  lemma Popped(vs: seq<Tagged>, ts: seq<Tagged>)
    ensures (vs + ts)[..|vs|] == vs && (vs + ts)[|vs|..] == ts && |vs + ts| - |ts| == |vs|
  {
  }

  // One instruction on top of its operands.
  lemma Applies(cfg: Config, st: RunState, i: Instr, k: Code, vs: seq<Tagged>, ts: seq<Tagged>)
    requires |ts| == Pops(i)
    ensures Step(cfg, Going(st, Then(i, k), vs + ts)) == Apply(cfg, Going(st, Then(i, k), vs + ts), st, i, k, vs, ts)
  {
    hide Apply;
    Popped(vs, ts);
  }

  lemma AppliesTo(cfg: Config, m: Machine, st: RunState, i: Instr, k: Code, vs: seq<Tagged>, ts: seq<Tagged>,
                  end: Machine)
    requires |ts| == Pops(i) && Reaches(cfg, m, Going(st, Then(i, k), vs + ts))
    requires Apply(cfg, Going(st, Then(i, k), vs + ts), st, i, k, vs, ts) == end
    ensures Reaches(cfg, m, end)
  {
    hide Apply, Step;
    Applies(cfg, st, i, k, vs, ts);
    ReachesSelf(cfg, end);
    StepReaches(cfg, Going(st, Then(i, k), vs + ts), end);
    ReachesOn(cfg, m, Going(st, Then(i, k), vs + ts), end);
  }

  // The first step of an expansion.
  lemma Expands(cfg: Config, st: RunState, i: Instr, k: Code, vs: seq<Tagged>, mid: Machine)
    requires Pops(i) == 0 && Apply(cfg, Going(st, Then(i, k), vs), st, i, k, vs, []) == mid
    ensures Reaches(cfg, Going(st, Then(i, k), vs), mid)
  {
    hide Apply;
    assert vs + [] == vs;
    ReachesSelf(cfg, Going(st, Then(i, k), vs));
    AppliesTo(cfg, Going(st, Then(i, k), vs), st, i, k, vs, [], mid);
  }

  // ----- calls -----

  lemma AsksAlike(cfg: Config, st: RunState, v: VerbId)
    ensures Asking(cfg, st, v) == (InvokeState(cfg, st, v), Gated(cfg, st, v))
  {
    hide Exercise;
  }

  lemma CallLeads(cfg: Config, m: Machine, st: RunState, i: Instr, k: Code, vs: seq<Tagged>, ts: seq<Tagged>, v: VerbId,
                  arg: Value, taint: Label)
    requires |ts| == Pops(i) && Reaches(cfg, m, Going(st, Then(i, k), vs + ts))
    requires Apply(cfg, Going(st, Then(i, k), vs + ts), st, i, k, vs, ts) == Call(cfg, st, v, arg, taint, k, vs)
    ensures LeadsTo(cfg, m, Read(cfg, st, v, arg, taint), k, vs)
  {
    hide Apply, Exercise, InvokeState, Reaches;
    AsksAlike(cfg, st, v);
    AppliesTo(cfg, m, st, i, k, vs, ts, Call(cfg, st, v, arg, taint, k, vs));
  }

  // ----- expressions -----

  lemma {:induction false} ExprRuns(cfg: Config, st: RunState, e: Expr, k: Code, vs: seq<Tagged>)
    ensures LeadsTo(cfg, Going(st, Then(PushExpr(e), k), vs), Eval(cfg, st, e), k, vs)
    decreases e, 0
  {
    hide Reaches, Read, EvalArgs, Call;
    var m := Going(st, Then(PushExpr(e), k), vs);
    Expands(cfg, st, PushExpr(e), k, vs, Expand(cfg, st, e, k, vs));
    match e {
      case Const(v) =>
      case Var(x) =>
      case Index(base, i) =>
        ExprRuns(cfg, st, base, Then(Pick(i), k), vs);
        var b := Eval(cfg, st, base);
        Onward(cfg, m, Expand(cfg, st, e, k, vs), b, Then(Pick(i), k), vs);
        if b.res.Ok? {
          AppliesTo(cfg, m, b.st, Pick(i), k, vs, [b.res.value],
            Push(b.st, k, vs, Tagged(PickFrom(b.res.value.value, i), b.res.value.taint)));
        }
      case Observe(v, args) =>
        if v in cfg.schemas.observe {
          var base := cfg.schemas.observe[v];
          var ts := ArgsRun(cfg, st, args, base, Then(Ask(v, |args|, base), k), vs);
          var a := EvalArgs(cfg, st, args, base);
          ArgsOnward(cfg, m, Expand(cfg, st, e, k, vs), a, base, Then(Ask(v, |args|, base), k), vs, |args|, ts);
          if a.res.Ok? {
            CallLeads(cfg, m, a.st, Ask(v, |args|, base), k, vs, ts, v, ReadArg(a.res.value.vals), a.res.value.taint);
          }
        }
      case Pure(func, args) =>
        var ts := ArgsRun(cfg, st, args, PUBLIC, Then(Compute(func, |args|), k), vs);
        var a := EvalArgs(cfg, st, args, PUBLIC);
        ArgsOnward(cfg, m, Expand(cfg, st, e, k, vs), a, PUBLIC, Then(Compute(func, |args|), k), vs, |args|, ts);
        if a.res.Ok? {
          CallLeads(cfg, m, a.st, Compute(func, |args|), k, vs, ts, COMPUTE,
            Object([("func", Text(func)), ("args", List(a.res.value.vals))]), a.res.value.taint);
        }
    }
  }

  lemma Onward(cfg: Config, m: Machine, mid: Machine, r: Run<Tagged>, k: Code, vs: seq<Tagged>)
    requires Reaches(cfg, m, mid) && LeadsTo(cfg, mid, r, k, vs)
    ensures LeadsTo(cfg, m, r, k, vs)
  {
    hide Reaches;
    match r.res {
      case Ok(t) => ReachesOn(cfg, m, mid, Going(r.st, k, vs + [t]));
      case Err(o) => ReachesOn(cfg, m, mid, Halt(r.st, o));
    }
  }

  lemma ArgsOnward(cfg: Config, m: Machine, mid: Machine, r: Run<Args>, base: Label, k: Code, vs: seq<Tagged>, n: nat,
                   ts: seq<Tagged>)
    requires Reaches(cfg, m, mid) && ArgsLeadTo(cfg, mid, r, base, k, vs, n, ts)
    ensures ArgsLeadTo(cfg, m, r, base, k, vs, n, ts)
  {
    hide Reaches;
    match r.res {
      case Ok(x) => ReachesOn(cfg, m, mid, Going(r.st, k, vs + ts));
      case Err(o) => ReachesOn(cfg, m, mid, Halt(r.st, o));
    }
  }

  lemma {:induction false} ArgsRun(cfg: Config, st: RunState, args: seq<Expr>, base: Label, k: Code, vs: seq<Tagged>)
    returns (ts: seq<Tagged>)
    ensures ArgsLeadTo(cfg, Going(st, PushAll(args, k), vs), EvalArgs(cfg, st, args, base), base, k, vs, |args|, ts)
    decreases args, 0
  {
    hide Reaches, Eval;
    var m := Going(st, PushAll(args, k), vs);
    if args == [] {
      ts := [];
      assert vs + [] == vs;
      ReachesSelf(cfg, m);
    } else {
      var n := |args| - 1;
      var k2 := Then(PushExpr(args[n]), k);
      var front := ArgsRun(cfg, st, args[..n], base, k2, vs);
      var a := EvalArgs(cfg, st, args[..n], base);
      ts := front;
      if a.res.Ok? {
        ExprRuns(cfg, a.st, args[n], k, vs + front);
        var b := Eval(cfg, a.st, args[n]);
        Onward(cfg, m, Going(a.st, k2, vs + front), b, k, vs + front);
        if b.res.Ok? {
          ts := front + [b.res.value];
          assert (vs + front) + [b.res.value] == vs + ts;
          assert ts[..n] == front;
        }
      }
    }
  }

  // ----- guards -----

  lemma {:induction false} GuardRuns(cfg: Config, st: RunState, g: Guard, k: Code, vs: seq<Tagged>)
    ensures GuardLeadsTo(cfg, Going(st, Then(PushGuard(g), k), vs), EvalGuard(cfg, st, g), k, vs)
    decreases g, 1
  {
    hide Reaches, Eval;
    var m := Going(st, Then(PushGuard(g), k), vs);
    var mid := ExpandGuard(st, g, k, vs);
    Expands(cfg, st, PushGuard(g), k, vs, mid);
    match g {
      case Exists(e) =>
        ExprRuns(cfg, st, e, Then(IsThere, k), vs);
        var a := Eval(cfg, st, e);
        Onward(cfg, m, mid, a, Then(IsThere, k), vs);
        if a.res.Ok? {
          AppliesTo(cfg, m, a.st, IsThere, k, vs, [a.res.value],
            Push(a.st, k, vs, Tagged(Flag(There(a.res.value.value)), a.res.value.taint)));
        }
      case Matches(e, regex) =>
        ExprRuns(cfg, st, e, Then(Like(regex), k), vs);
        var a := Eval(cfg, st, e);
        Onward(cfg, m, mid, a, Then(Like(regex), k), vs);
        if a.res.Ok? {
          MatchRuns(cfg, m, a.st, a.res.value, regex, k, vs);
        }
      case Cmp(l, op, r) =>
        ExprRuns(cfg, st, l, Then(PushExpr(r), Then(Compare(op), k)), vs);
        var a := Eval(cfg, st, l);
        Onward(cfg, m, mid, a, Then(PushExpr(r), Then(Compare(op), k)), vs);
        if a.res.Ok? {
          var x := a.res.value;
          ExprRuns(cfg, a.st, r, Then(Compare(op), k), vs + [x]);
          var b := Eval(cfg, a.st, r);
          Onward(cfg, m, Going(a.st, Then(PushExpr(r), Then(Compare(op), k)), vs + [x]), b, Then(Compare(op), k),
            vs + [x]);
          if b.res.Ok? {
            PairApplies(cfg, m, b.st, Compare(op), k, vs, x, b.res.value,
              op.Holds(CmpValues(x.value, b.res.value.value)));
          }
        }
      case And(_, _) => PairRuns(cfg, st, g, k, vs);
      case Or(_, _) => PairRuns(cfg, st, g, k, vs);
      case Not(h) =>
        GuardRuns(cfg, st, h, Then(Negate, k), vs);
        var a := EvalGuard(cfg, st, h);
        GuardOnward(cfg, m, mid, a, Then(Negate, k), vs);
        if a.res.Ok? {
          var t := Tagged(Flag(a.res.value.holds), a.res.value.taint);
          AppliesTo(cfg, m, a.st, Negate, k, vs, [t], Push(a.st, k, vs, Tagged(Flag(!a.res.value.holds), t.taint)));
        }
    }
  }

  lemma GuardOnward(cfg: Config, m: Machine, mid: Machine, r: Run<Verdict>, k: Code, vs: seq<Tagged>)
    requires Reaches(cfg, m, mid) && GuardLeadsTo(cfg, mid, r, k, vs)
    ensures GuardLeadsTo(cfg, m, r, k, vs)
  {
    hide Reaches;
    match r.res {
      case Ok(v) => ReachesOn(cfg, m, mid, Going(r.st, k, vs + [Tagged(Flag(v.holds), v.taint)]));
      case Err(o) => ReachesOn(cfg, m, mid, Halt(r.st, o));
    }
  }

  lemma MatchRuns(cfg: Config, m: Machine, st: RunState, t: Tagged, regex: string, k: Code, vs: seq<Tagged>)
    requires Reaches(cfg, m, Going(st, Then(Like(regex), k), vs + [t]))
    ensures GuardLeadsTo(cfg, m, Run(st, Match(cfg, t, regex)), k, vs)
  {
    hide Reaches;
    var here := Going(st, Then(Like(regex), k), vs + [t]);
    AppliesTo(cfg, m, st, Like(regex), k, vs, [t], PlanMachine.Apply(cfg, here, st, Like(regex), k, vs, [t]));
  }

  lemma PairApplies(cfg: Config, m: Machine, st: RunState, i: Instr, k: Code, vs: seq<Tagged>, x: Tagged, y: Tagged,
                    holds: bool)
    requires (i.Compare? || i.Both? || i.Either?) && Combined(i, x, y) == Some(holds)
    requires Reaches(cfg, m, Going(st, Then(i, k), vs + [x] + [y]))
    ensures Reaches(cfg, m, Going(st, k, vs + [Tagged(Flag(holds), x.taint.Join(y.taint))]))
  {
    hide Reaches, Combined;
    assert vs + [x] + [y] == vs + [x, y];
    AppliesTo(cfg, m, st, i, k, vs, [x, y], Push(st, k, vs, Tagged(Flag(holds), Union(x.taint, y.taint))));
  }

  lemma {:induction false} PairRuns(cfg: Config, st: RunState, g: Guard, k: Code, vs: seq<Tagged>)
    requires g.And? || g.Or?
    ensures GuardLeadsTo(cfg, Going(st, Then(PushGuard(g), k), vs), EvalGuard(cfg, st, g), k, vs)
    decreases g, 0
  {
    hide Reaches;
    var m := Going(st, Then(PushGuard(g), k), vs);
    var last := if g.And? then Both else Either;
    var mid := Going(st, Then(PushGuard(g.l), Then(PushGuard(g.r), Then(last, k))), vs);
    Expands(cfg, st, PushGuard(g), k, vs, mid);
    GuardRuns(cfg, st, g.l, Then(PushGuard(g.r), Then(last, k)), vs);
    var a := EvalGuard(cfg, st, g.l);
    GuardOnward(cfg, m, mid, a, Then(PushGuard(g.r), Then(last, k)), vs);
    if a.res.Ok? {
      var x := Tagged(Flag(a.res.value.holds), a.res.value.taint);
      GuardRuns(cfg, a.st, g.r, Then(last, k), vs + [x]);
      var b := EvalGuard(cfg, a.st, g.r);
      GuardOnward(cfg, m, Going(a.st, Then(PushGuard(g.r), Then(last, k)), vs + [x]), b, Then(last, k), vs + [x]);
      if b.res.Ok? {
        var y := Tagged(Flag(b.res.value.holds), b.res.value.taint);
        PairApplies(cfg, m, b.st, last, k, vs, x, y,
          if g.And? then x.value.on && y.value.on else x.value.on || y.value.on);
      }
    }
  }

  // ----- effects -----

  lemma WaitsAlike(st: RunState, k: Code, vs: seq<Tagged>)
    ensures var p := Park(st);
            Wait(st, k, vs) == match p.res case Ok(_) => Going(p.st, k, vs) case Err(o) => Halt(p.st, o)
  {
    hide Mint;
    if st.signals != [] && st.signals[0].Resume? && st.signals[0].partial.Some? {
      var c := st.signals[0].consent;
      var minted := Mint(c.budget.Keys, c.budget, c.Expires());
      var fs := st.signals[0].partial.value;
      assert (map f | f in minted && f in fs :: minted[f]) == Only(minted, fs);
    }
  }

  lemma EndsOnward(cfg: Config, m: Machine, mid: Machine, r: Run<()>, k: Code, vs: seq<Tagged>)
    requires Reaches(cfg, m, mid) && EndsAs(cfg, mid, r, k, vs)
    ensures EndsAs(cfg, m, r, k, vs)
  {
    hide Reaches;
    match r.res {
      case Ok(_) => ReachesOn(cfg, m, mid, Going(r.st, k, vs));
      case Err(o) => ReachesOn(cfg, m, mid, Halt(r.st, o));
    }
  }

  lemma {:induction false} OfferRuns(cfg: Config, st: RunState, v: VerbId, arg: Value, low: Label, remaining: nat,
                                     k: Code, vs: seq<Tagged>)
    ensures EndsAs(cfg, Going(st, Then(Offer(v, arg, low, remaining), k), vs),
                   Emit(cfg, st, v, cfg.target(v, arg), arg, low, remaining), k, vs)
    decreases |st.signals|
  {
    hide Reaches, Exercise, Wait, Park;
    var i := Offer(v, arg, low, remaining);
    var m := Going(st, Then(i, k), vs);
    AsksAlike(cfg, st, v);
    Expands(cfg, st, i, k, vs, Settle(cfg, st, i, k, vs));
    var after := InvokeState(cfg, st, v);
    if Invoke(cfg, st, v, arg).GateRefused? && CurrentMode(st).Escalate? {
      WaitsAlike(after, Then(i, k), vs);
      var p := Park(after);
      if p.res.Ok? {
        ParkTakes(after);
        OfferRuns(cfg, p.st, v, arg, low, remaining, k, vs);
        EndsOnward(cfg, m, Going(p.st, Then(i, k), vs), Emit(cfg, p.st, v, cfg.target(v, arg), arg, low, remaining), k,
          vs);
      }
    }
  }

  lemma ParkTakes(st: RunState)
    requires Park(st).res.Ok?
    ensures |Park(st).st.signals| < |st.signals|
  {
    hide Mint;
  }

  lemma EffectRuns(cfg: Config, st: RunState, v: VerbId, args: seq<Expr>, pc: Label, remaining: nat, k: Code,
                   vs: seq<Tagged>)
    ensures EndsAs(cfg, Going(st, PushAll(args, Then(Perform(v, |args|, pc, remaining), k)), vs),
                   ExecEffect(cfg, st, v, args, pc, remaining), k, vs)
  {
    hide Reaches, EvalArgs, Emit;
    var i := Perform(v, |args|, pc, remaining);
    var m := Going(st, PushAll(args, Then(i, k)), vs);
    var ts := ArgsRun(cfg, st, args, pc, Then(i, k), vs);
    var a := EvalArgs(cfg, st, args, pc);
    if a.res.Ok? {
      AppliesTo(cfg, m, a.st, i, k, vs, ts, Act(cfg, a.st, v, ts, pc, remaining, k, vs));
      var arg := EffectArg(a.res.value.vals);
      ActsAlike(cfg, a.st, v, ts, pc, remaining, k, vs, a.res.value);
      if !(External(cfg.schemas, v) && a.res.value.taint.conf != {}) && !cfg.withhold(v, arg) {
        OfferRuns(cfg, a.st, v, arg, a.res.value.taint, remaining, k, vs);
        EndsOnward(cfg, m, Going(a.st, Then(Offer(v, arg, a.res.value.taint, remaining), k), vs),
          Emit(cfg, a.st, v, cfg.target(v, arg), arg, a.res.value.taint, remaining), k, vs);
      }
    }
  }

  lemma ActsAlike(cfg: Config, st: RunState, v: VerbId, ts: seq<Tagged>, pc: Label, remaining: nat, k: Code,
                  vs: seq<Tagged>, x: Args)
    requires Values(ts) == x.vals && Taints(pc, ts) == x.taint
    ensures var arg := EffectArg(x.vals);
            Act(cfg, st, v, ts, pc, remaining, k, vs) ==
              if External(cfg.schemas, v) && x.taint.conf != {} then Halt(st, FailStop(SinkRefused(v)))
              else if !cfg.withhold(v, arg) then Going(st, Then(Offer(v, arg, x.taint, remaining), k), vs)
              else
                match Withhold(cfg, st, v, arg, x.taint).res
                case Ok(_) => Going(Withhold(cfg, st, v, arg, x.taint).st, k, vs)
                case Err(o) => Halt(st, o)
  {
    hide NextNum;
    assert |x.vals| == |ts|;
    if |ts| == 1 {
      assert x.vals[0] == ts[0].value;
    }
  }

  // ----- statements -----

  lemma {:induction false} ListRuns(cfg: Config, st: RunState, stmts: seq<Stmt>, pc: Label, total: nat, k: Code,
                                    vs: seq<Tagged>)
    requires |stmts| <= total
    ensures EndsAs(cfg, Going(st, Block(stmts, pc, total, k), vs), ExecList(cfg, st, stmts, pc, total), k, vs)
    decreases stmts, 0
  {
    hide Reaches, ExecStmt;
    var m := Going(st, Block(stmts, pc, total, k), vs);
    if stmts == [] {
      ReachesSelf(cfg, m);
    } else {
      var n := |stmts| - 1;
      var k2 := Then(Exec(stmts[n], pc, total - n), k);
      ListRuns(cfg, st, stmts[..n], pc, total, k2, vs);
      var front := ExecList(cfg, st, stmts[..n], pc, total);
      if front.res.Ok? {
        StmtRuns(cfg, front.st, stmts[n], pc, total - n, k, vs);
        EndsOnward(cfg, m, Going(front.st, k2, vs), ExecStmt(cfg, front.st, stmts[n], pc, total - n), k, vs);
      }
    }
  }

  lemma {:induction false} StmtRuns(cfg: Config, st: RunState, s: Stmt, pc: Label, remaining: nat, k: Code,
                                    vs: seq<Tagged>)
    ensures EndsAs(cfg, Going(st, Then(Exec(s, pc, remaining), k), vs), ExecStmt(cfg, st, s, pc, remaining), k, vs)
    decreases s, 1
  {
    hide Reaches, Eval, EvalGuard, ExecEffect, ExecList;
    var i := Exec(s, pc, remaining);
    var m := Going(st, Then(i, k), vs);
    var st1 := st.(steps := st.steps + 1);
    var mid := ExpandStmt(st1, s, pc, remaining, k, vs);
    Expands(cfg, st, i, k, vs, mid);
    match s {
      case Let(x, e) =>
        ExprRuns(cfg, st1, e, Then(Bind(x), k), vs);
        var a := Eval(cfg, st1, e);
        Onward(cfg, m, mid, a, Then(Bind(x), k), vs);
        if a.res.Ok? {
          AppliesTo(cfg, m, a.st, Bind(x), k, vs, [a.res.value],
            Going(a.st.(env := a.st.env[x := a.res.value]), k, vs));
        }
      case Effect(v, args) =>
        EffectRuns(cfg, st1, v, args, pc, remaining, k, vs);
        EndsOnward(cfg, m, mid, ExecEffect(cfg, st1, v, args, pc, remaining), k, vs);
      case If(_, _, _) => IfRuns(cfg, st1, s, pc, k, vs, m, remaining);
      case Foreach(_, _, _, _, _) => LoopRuns(cfg, st1, s, pc, k, vs, m, remaining);
    }
  }

  lemma {:induction false} IfRuns(cfg: Config, st: RunState, s: Stmt, pc: Label, k: Code, vs: seq<Tagged>, m: Machine,
                                  remaining: nat)
    requires s.If? && st.steps > 0
    requires Reaches(cfg, m, Going(st, Then(PushGuard(s.guard), Then(Choose(s.thenArm, s.elseArm, pc), k)), vs))
    ensures EndsAs(cfg, m, ExecStmt(cfg, st.(steps := st.steps - 1), s, pc, remaining), k, vs)
    decreases s, 0
  {
    hide Reaches, EvalGuard, ExecList;
    var i := Choose(s.thenArm, s.elseArm, pc);
    GuardRuns(cfg, st, s.guard, Then(i, k), vs);
    var v := EvalGuard(cfg, st, s.guard);
    GuardOnward(cfg, m, Going(st, Then(PushGuard(s.guard), Then(i, k)), vs), v, Then(i, k), vs);
    if v.res.Ok? {
      var x := v.res.value;
      var t := Tagged(Flag(x.holds), x.taint);
      var arm := if x.holds then s.thenArm else s.elseArm;
      var pc2 := pc.Join(x.taint);
      AppliesTo(cfg, m, v.st, i, k, vs, [t], Going(v.st, Block(arm, pc2, |arm|, k), vs));
      ListRuns(cfg, v.st, arm, pc2, |arm|, k, vs);
      EndsOnward(cfg, m, Going(v.st, Block(arm, pc2, |arm|, k), vs), ExecBlock(cfg, v.st, arm, pc2), k, vs);
    }
  }

  // ----- loops -----

  lemma {:induction false} ItemsRun(cfg: Config, st: RunState, x: Name, items: seq<Value>, taint: Label,
                                    body: seq<Stmt>, pc: Label, k: Code, vs: seq<Tagged>)
    ensures EndsAs(cfg, Going(st, Rounds(x, items, taint, body, pc, k), vs),
                   ExecItems(cfg, st, x, items, taint, body, pc), k, vs)
    decreases body, |items| + 2
  {
    hide Reaches, ExecList;
    var m := Going(st, Rounds(x, items, taint, body, pc, k), vs);
    if items == [] {
      ReachesSelf(cfg, m);
    } else {
      var n := |items| - 1;
      var t := Tagged(items[n], taint);
      var k2 := Block(body, pc, |body|, k);
      ItemsRun(cfg, st, x, items[..n], taint, body, pc, Then(Put(x, t), k2), vs);
      var front := ExecItems(cfg, st, x, items[..n], taint, body, pc);
      if front.res.Ok? {
        var next := front.st.(env := front.st.env[x := t]);
        Expands(cfg, front.st, Put(x, t), k2, vs, Going(next, k2, vs));
        ReachesOn(cfg, m, Going(front.st, Then(Put(x, t), k2), vs), Going(next, k2, vs));
        ListRuns(cfg, next, body, pc, |body|, k, vs);
        EndsOnward(cfg, m, Going(next, k2, vs), ExecBlock(cfg, next, body, pc), k, vs);
      }
    }
  }

  // What entering a loop does, in terms of what it is admitted to take.
  lemma EntersAlike(st: RunState, i: Instr, t: Tagged, k: Code, vs: seq<Tagged>)
    requires i.Enter?
    ensures var items := t.value.Items();
            var a := Admitted(st, |items|, i.bound, i.mode);
            Enters(st, i, t, k, vs) ==
              match a.res
              case Ok(take) => Iterating(a.st, i, items[..take], t.taint, k, vs)
              case Err(o) => Halt(a.st, o)
  {
    hide Wait, Park;
    var items := t.value.Items();
    assert items[..|items|] == items;
    WaitsAlike(st, k, vs);
  }

  lemma {:induction false} LoopRuns(cfg: Config, st: RunState, s: Stmt, pc: Label, k: Code, vs: seq<Tagged>, m: Machine,
                                    remaining: nat)
    requires s.Foreach? && st.steps > 0
    requires Reaches(cfg, m, Going(st, Then(PushExpr(s.list), Then(Enter(s.item, s.bound, s.mode, s.body, pc), k)), vs))
    ensures EndsAs(cfg, m, ExecStmt(cfg, st.(steps := st.steps - 1), s, pc, remaining), k, vs)
    decreases s, 0
  {
    hide Reaches, Eval, ExecItems, Enters, Admitted;
    var i := Enter(s.item, s.bound, s.mode, s.body, pc);
    ExprRuns(cfg, st, s.list, Then(i, k), vs);
    var l := Eval(cfg, st, s.list);
    Onward(cfg, m, Going(st, Then(PushExpr(s.list), Then(i, k)), vs), l, Then(i, k), vs);
    if l.res.Ok? {
      var t := l.res.value;
      AppliesTo(cfg, m, l.st, i, k, vs, [t], Enters(l.st, i, t, k, vs));
      EntersAlike(l.st, i, t, k, vs);
      var items := t.value.Items();
      var a := Admitted(l.st, |items|, s.bound, s.mode);
      if a.res.Ok? {
        RoundsRun(cfg, a.st, s, items[..a.res.value], t.taint, pc, k, vs, m);
      }
    }
  }

  lemma {:induction false} RoundsRun(cfg: Config, st: RunState, s: Stmt, items: seq<Value>, taint: Label, pc: Label,
                                     k: Code, vs: seq<Tagged>, m: Machine)
    requires s.Foreach?
    requires Reaches(cfg, m, Iterating(st, Enter(s.item, s.bound, s.mode, s.body, pc), items, taint, k, vs))
    ensures var inner := st.(modes := st.modes + [s.mode]);
            var r := ExecItems(cfg, inner, s.item, items, taint, s.body, pc.Join(taint));
            EndsAs(cfg, m, Run(r.st.(modes := PopMode(r.st.modes)), r.res), k, vs)
    decreases s.body, |items| + 3
  {
    hide Reaches, ExecItems;
    var inner := st.(modes := st.modes + [s.mode]);
    var pc2 := pc.Join(taint);
    ItemsRun(cfg, inner, s.item, items, taint, s.body, pc2, Then(Leave, k), vs);
    var r := ExecItems(cfg, inner, s.item, items, taint, s.body, pc2);
    EndsOnward(cfg, m, Going(inner, Rounds(s.item, items, taint, s.body, pc2, Then(Leave, k)), vs), r, Then(Leave, k),
      vs);
    if r.res.Ok? {
      Expands(cfg, r.st, Leave, k, vs, Going(r.st.(modes := PopMode(r.st.modes)), k, vs));
      ReachesOn(cfg, m, Going(r.st, Then(Leave, k), vs), Going(r.st.(modes := PopMode(r.st.modes)), k, vs));
    }
  }

  // ----- the theorem -----

  // The machine is finished: it has stopped, or has no code left.
  predicate Finished(m: Machine) {
    m.Stopped? || m.code.End?
  }

  lemma {:induction false} FinishedStays(cfg: Config, m: Machine, n: nat)
    requires Finished(m)
    ensures After(cfg, m, n) == m
    decreases n
  {
    if n > 0 {
      FinishedStays(cfg, m, n - 1);
    }
  }

  // Where the machine finishes is unique.
  lemma FinishesOnce(cfg: Config, m: Machine, x: Machine, y: Machine)
    requires Reaches(cfg, m, x) && Reaches(cfg, m, y) && Finished(x) && Finished(y)
    ensures x == y
  {
    hide After, Finished;
    var a: nat :| After(cfg, m, a) == x;
    var b: nat :| After(cfg, m, b) == y;
    if a <= b {
      AfterAdd(cfg, m, a, b - a);
      FinishedStays(cfg, x, b - a);
    } else {
      AfterAdd(cfg, m, b, a - b);
      FinishedStays(cfg, y, a - b);
    }
  }

  // From any state, the code of a plan finishes, and where it finishes is exactly what the meaning
  // gives: the same state and, where the plan stops, the same outcome.
  lemma MachineMeans(cfg: Config, st: RunState, stmts: seq<Stmt>, pc: Label, end: Machine)
    ensures var r := ExecBlock(cfg, st, stmts, pc);
            Reaches(cfg, Going(st, Block(stmts, pc, |stmts|, End), []), end) && Finished(end) <==>
              end == match r.res case Ok(_) => Going(r.st, End, []) case Err(o) => Stopped(r.st.(modes := []), o)
  {
    hide Reaches, ExecList, Block;
    var r := ExecBlock(cfg, st, stmts, pc);
    var m := Going(st, Block(stmts, pc, |stmts|, End), []);
    ListRuns(cfg, st, stmts, pc, |stmts|, End, []);
    var x := match r.res case Ok(_) => Going(r.st, End, []) case Err(o) => Halt(r.st, o);
    if Reaches(cfg, m, end) && Finished(end) {
      FinishesOnce(cfg, m, x, end);
    }
  }
}
