// A plan without escalating loops never looks at its signals.

module PlanSignals {
  import opened Prelude
  import opened PlanShapes
  import opened PlanIr
  import opened PlanCheck
  import opened PlanSemantics
  import opened PlanFrames

  // The same run with other signals in store.
  function With(st: RunState, signals: seq<Signal>): RunState {
    st.(signals := signals)
  }

  function Swapped<T>(r: Run<T>, signals: seq<Signal>): Run<T> {
    Run(With(r.st, signals), r.res)
  }

  // No enclosing loop escalates.
  predicate NoneEscalates(modes: seq<Mode>) {
    forall m :: m in modes ==> !m.Escalate?
  }

  lemma {:induction false} EvalSwaps(cfg: Config, st: RunState, e: Expr, other: seq<Signal>)
    ensures Eval(cfg, With(st, other), e) == Swapped(Eval(cfg, st, e), other)
    decreases e, 0
  {
    hide Exercise;
    match e {
      case Observe(verb, args) =>
        if verb in cfg.schemas.observe {
          ArgsSwap(cfg, st, args, cfg.schemas.observe[verb], other);
        }
      case Pure(_, args) => ArgsSwap(cfg, st, args, PUBLIC, other);
      case Const(_) =>
      case Var(_) =>
      case Index(base, _) => EvalSwaps(cfg, st, base, other);
    }
  }

  lemma {:induction false} ArgsSwap(cfg: Config, st: RunState, args: seq<Expr>, base: Label, other: seq<Signal>)
    ensures EvalArgs(cfg, With(st, other), args, base) == Swapped(EvalArgs(cfg, st, args, base), other)
    decreases args, 0
  {
    hide Eval;
    if args != [] {
      var n := |args| - 1;
      ArgsSwap(cfg, st, args[..n], base, other);
      EvalSwaps(cfg, EvalArgs(cfg, st, args[..n], base).st, args[n], other);
    }
  }

  lemma {:induction false} GuardSwaps(cfg: Config, st: RunState, g: Guard, other: seq<Signal>)
    ensures EvalGuard(cfg, With(st, other), g) == Swapped(EvalGuard(cfg, st, g), other)
    decreases g, 1
  {
    hide Eval;
    match g {
      case Exists(e) => EvalSwaps(cfg, st, e, other);
      case Matches(e, _) => EvalSwaps(cfg, st, e, other);
      case Cmp(l, _, r) =>
        EvalSwaps(cfg, st, l, other);
        EvalSwaps(cfg, Eval(cfg, st, l).st, r, other);
      case And(_, _) => PairSwaps(cfg, st, g, other);
      case Or(_, _) => PairSwaps(cfg, st, g, other);
      case Not(h) => GuardSwaps(cfg, st, h, other);
    }
  }

  lemma {:induction false} PairSwaps(cfg: Config, st: RunState, g: Guard, other: seq<Signal>)
    requires g.And? || g.Or?
    ensures EvalGuard(cfg, With(st, other), g) == Swapped(EvalGuard(cfg, st, g), other)
    decreases g, 0
  {
    GuardSwaps(cfg, st, g.l, other);
    GuardSwaps(cfg, EvalGuard(cfg, st, g.l).st, g.r, other);
  }

  lemma {:induction false} EmitSwaps(cfg: Config, st: RunState, v: VerbId, target: Name, arg: Value, low: Label,
                                     remaining: nat, other: seq<Signal>)
    requires NoneEscalates(st.modes)
    ensures Emit(cfg, With(st, other), v, target, arg, low, remaining) ==
            Swapped(Emit(cfg, st, v, target, arg, low, remaining), other)
  {
    hide Exercise, Park;
    assert Gated(cfg, With(st, other), v) == Gated(cfg, st, v);
    assert InvokeState(cfg, With(st, other), v) == With(InvokeState(cfg, st, v), other);
    assert !CurrentMode(st).Escalate?;
    if Invoke(cfg, st, v, arg).Got? {
      var after := InvokeState(cfg, st, v);
      assert Logged(With(after, other), v, target, low) == With(Logged(after, v, target, low), other);
    }
  }

  lemma EffectSwaps(cfg: Config, st: RunState, v: VerbId, args: seq<Expr>, pc: Label, remaining: nat,
                    other: seq<Signal>)
    requires NoneEscalates(st.modes)
    ensures ExecEffect(cfg, With(st, other), v, args, pc, remaining) ==
            Swapped(ExecEffect(cfg, st, v, args, pc, remaining), other)
  {
    hide EvalArgs, Emit, NextNum;
    ArgsSwap(cfg, st, args, pc, other);
    ArgsFrame(cfg, st, args, pc);
    var a := EvalArgs(cfg, st, args, pc);
    if a.res.Ok? {
      var arg := EffectArg(a.res.value.vals);
      EmitSwaps(cfg, a.st, v, cfg.target(v, arg), arg, a.res.value.taint, remaining, other);
    }
  }

  // ----- statements; the stack of modes is put back -----

  lemma {:induction false} ListModes(cfg: Config, st: RunState, stmts: seq<Stmt>, pc: Label, total: nat)
    requires |stmts| <= total
    ensures ExecList(cfg, st, stmts, pc, total).st.modes == st.modes
    decreases stmts, 0
  {
    hide ExecStmt;
    if stmts != [] {
      var n := |stmts| - 1;
      ListModes(cfg, st, stmts[..n], pc, total);
      StmtModes(cfg, ExecList(cfg, st, stmts[..n], pc, total).st, stmts[n], pc, total - n);
    }
  }

  lemma {:induction false} EffectModes(cfg: Config, st: RunState, v: VerbId, args: seq<Expr>, pc: Label, remaining: nat)
    ensures ExecEffect(cfg, st, v, args, pc, remaining).st.modes == st.modes
  {
    hide EvalArgs, Emit, NextNum;
    ArgsFrame(cfg, st, args, pc);
    var a := EvalArgs(cfg, st, args, pc);
    if a.res.Ok? {
      var arg := EffectArg(a.res.value.vals);
      EmitModes(cfg, a.st, v, cfg.target(v, arg), arg, a.res.value.taint, remaining);
    }
  }

  lemma {:induction false} EmitModes(cfg: Config, st: RunState, v: VerbId, target: Name, arg: Value, low: Label,
                                     remaining: nat)
    ensures Emit(cfg, st, v, target, arg, low, remaining).st.modes == st.modes
    decreases |st.signals|
  {
    hide Gated, Mint;
    var after := InvokeState(cfg, st, v);
    if Invoke(cfg, st, v, arg).GateRefused? && CurrentMode(st).Escalate? && Park(after).res.Ok? {
      EmitModes(cfg, Park(after).st, v, target, arg, low, remaining);
    }
  }

  lemma {:induction false} StmtModes(cfg: Config, st: RunState, s: Stmt, pc: Label, remaining: nat)
    ensures ExecStmt(cfg, st, s, pc, remaining).st.modes == st.modes
    decreases s, 0
  {
    hide Eval, EvalGuard, ExecEffect, ExecItems, ExecList;
    var st1 := st.(steps := st.steps + 1);
    match s {
      case Let(_, e) => EvalFrame(cfg, st1, e);
      case Effect(verb, args) => EffectModes(cfg, st1, verb, args, pc, remaining);
      case If(g, a, b) =>
        GuardFrame(cfg, st1, g);
        var v := EvalGuard(cfg, st1, g);
        if v.res.Ok? {
          var arm := if v.res.value.holds then a else b;
          ListModes(cfg, v.st, arm, pc.Join(v.res.value.taint), |arm|);
        }
      case Foreach(x, list, bound, mode, body) =>
        EvalFrame(cfg, st1, list);
        var l := Eval(cfg, st1, list);
        if l.res.Ok? {
          var items, taint := l.res.value.value.Items(), l.res.value.taint;
          var admitted := Admitted(l.st, |items|, bound, mode);
          AdmittedModes(l.st, |items|, bound, mode);
          if admitted.res.Ok? {
            var inner := admitted.st.(modes := admitted.st.modes + [mode]);
            ItemsModes(cfg, inner, x, items[..admitted.res.value], taint, body, pc.Join(taint));
            assert PopMode(inner.modes) == st.modes;
          }
        }
    }
  }

  lemma AdmittedModes(st: RunState, n: nat, bound: nat, mode: Mode)
    ensures Admitted(st, n, bound, mode).st.modes == st.modes
  {
    hide Mint;
  }

  lemma {:induction false} ItemsModes(cfg: Config, st: RunState, x: Name, items: seq<Value>, taint: Label,
                                      body: seq<Stmt>, pc: Label)
    ensures ExecItems(cfg, st, x, items, taint, body, pc).st.modes == st.modes
    decreases body, |items| + 2
  {
    hide ExecList;
    if items != [] {
      var n := |items| - 1;
      ItemsModes(cfg, st, x, items[..n], taint, body, pc);
      var front := ExecItems(cfg, st, x, items[..n], taint, body, pc);
      if front.res.Ok? {
        ListModes(cfg, front.st.(env := front.st.env[x := Tagged(items[n], taint)]), body, pc, |body|);
      }
    }
  }

  lemma {:induction false} ListSwaps(cfg: Config, st: RunState, stmts: seq<Stmt>, pc: Label, total: nat,
                                     other: seq<Signal>)
    requires |stmts| <= total && EscalateFree(stmts) && NoneEscalates(st.modes)
    ensures ExecList(cfg, With(st, other), stmts, pc, total) == Swapped(ExecList(cfg, st, stmts, pc, total), other)
    decreases stmts, 0
  {
    hide ExecStmt;
    if stmts != [] {
      var n := |stmts| - 1;
      var front := ExecList(cfg, st, stmts[..n], pc, total);
      ListSwaps(cfg, st, stmts[..n], pc, total, other);
      if front.res.Ok? {
        ListModes(cfg, st, stmts[..n], pc, total);
        StmtSwaps(cfg, front.st, stmts[n], pc, total - n, other);
      }
    }
  }

  lemma {:induction false} StmtSwaps(cfg: Config, st: RunState, s: Stmt, pc: Label, remaining: nat,
                                     other: seq<Signal>)
    requires StmtEscalateFree(s) && NoneEscalates(st.modes)
    ensures ExecStmt(cfg, With(st, other), s, pc, remaining) == Swapped(ExecStmt(cfg, st, s, pc, remaining), other)
    decreases s, 0
  {
    hide Eval, EvalGuard, ExecEffect, ExecItems, ExecList;
    var st1 := st.(steps := st.steps + 1);
    assert With(st, other).(steps := st.steps + 1) == With(st1, other);
    match s {
      case Let(_, e) => EvalSwaps(cfg, st1, e, other);
      case Effect(verb, args) => EffectSwaps(cfg, st1, verb, args, pc, remaining, other);
      case If(g, a, b) =>
        GuardSwaps(cfg, st1, g, other);
        GuardFrame(cfg, st1, g);
        var v := EvalGuard(cfg, st1, g);
        if v.res.Ok? {
          var arm := if v.res.value.holds then a else b;
          ListSwaps(cfg, v.st, arm, pc.Join(v.res.value.taint), |arm|, other);
        }
      case Foreach(_, _, _, _, _) => LoopSwaps(cfg, st, s, pc, remaining, other);
    }
  }

  lemma {:induction false} LoopSwaps(cfg: Config, st: RunState, s: Stmt, pc: Label, remaining: nat,
                                     other: seq<Signal>)
    requires s.Foreach? && StmtEscalateFree(s) && NoneEscalates(st.modes)
    ensures ExecStmt(cfg, With(st, other), s, pc, remaining) == Swapped(ExecStmt(cfg, st, s, pc, remaining), other)
    decreases s, 0, 0
  {
    hide Eval, ExecItems;
    var st1 := st.(steps := st.steps + 1);
    assert With(st, other).(steps := st.steps + 1) == With(st1, other);
    EvalSwaps(cfg, st1, s.list, other);
    EvalFrame(cfg, st1, s.list);
    var l := Eval(cfg, st1, s.list);
    if l.res.Ok? {
      var items, taint := l.res.value.value.Items(), l.res.value.taint;
      var admitted := Admitted(l.st, |items|, s.bound, s.mode);
      if admitted.res.Ok? {
        var inner := admitted.st.(modes := admitted.st.modes + [s.mode]);
        assert With(admitted.st, other).(modes := admitted.st.modes + [s.mode]) == With(inner, other);
        ItemsSwap(cfg, inner, s.item, items[..admitted.res.value], taint, s.body, pc.Join(taint), other);
      }
    }
  }

  lemma {:induction false} ItemsSwap(cfg: Config, st: RunState, x: Name, items: seq<Value>, taint: Label,
                                     body: seq<Stmt>, pc: Label, other: seq<Signal>)
    requires EscalateFree(body) && NoneEscalates(st.modes)
    ensures ExecItems(cfg, With(st, other), x, items, taint, body, pc) ==
            Swapped(ExecItems(cfg, st, x, items, taint, body, pc), other)
    decreases body, |items| + 2
  {
    hide ExecList;
    if items != [] {
      var n := |items| - 1;
      var front := ExecItems(cfg, st, x, items[..n], taint, body, pc);
      ItemsSwap(cfg, st, x, items[..n], taint, body, pc, other);
      if front.res.Ok? {
        var next := front.st.(env := front.st.env[x := Tagged(items[n], taint)]);
        assert With(front.st, other).(env := next.env) == With(next, other);
        ItemsModes(cfg, st, x, items[..n], taint, body, pc);
        ListSwaps(cfg, next, body, pc, |body|, other);
      }
    }
  }

  // Signals in store change nothing in the run of a plan without escalating loops.
  lemma SignalsUnread(cfg: Config, st: RunState, stmts: seq<Stmt>, signals: seq<Signal>)
    requires EscalateFree(stmts) && st.modes == []
    ensures ExecBlock(cfg, With(st, signals), stmts, PUBLIC) == Swapped(ExecBlock(cfg, st, stmts, PUBLIC), signals)
  {
    hide ExecList;
    ListSwaps(cfg, st, stmts, PUBLIC, |stmts|, signals);
  }
}
