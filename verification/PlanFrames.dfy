// What every step of a run leaves alone.

module PlanFrames {
  import opened Prelude
  import opened PlanShapes
  import opened PlanIr
  import opened PlanCheck
  import opened PlanSemantics

  // ----- reads touch only the grants and the calls -----

  predicate OnlyCalls(a: RunState, b: RunState) {
    b == a.(grants := b.grants, calls := b.calls, asked := b.asked)
  }

  lemma {:induction false} EvalFrame(cfg: Config, st: RunState, e: Expr)
    ensures OnlyCalls(st, Eval(cfg, st, e).st)
    decreases e, 0
  {
    hide Exercise;
    match e {
      case Observe(verb, args) =>
        if verb in cfg.schemas.observe {
          ArgsFrame(cfg, st, args, cfg.schemas.observe[verb]);
        }
      case Pure(func, args) => ArgsFrame(cfg, st, args, PUBLIC);
      case Const(v) =>
      case Var(x) =>
      case Index(base, i) => EvalFrame(cfg, st, base);
    }
  }

  lemma {:induction false} ArgsFrame(cfg: Config, st: RunState, args: seq<Expr>, base: Label)
    ensures OnlyCalls(st, EvalArgs(cfg, st, args, base).st)
    decreases args, 0
  {
    hide Exercise;
    if args != [] {
      var n := |args| - 1;
      ArgsFrame(cfg, st, args[..n], base);
      EvalFrame(cfg, EvalArgs(cfg, st, args[..n], base).st, args[n]);
    }
  }

  lemma {:induction false} GuardFrame(cfg: Config, st: RunState, g: Guard)
    ensures OnlyCalls(st, EvalGuard(cfg, st, g).st)
    decreases g
  {
    hide Eval;
    match g {
      case Exists(e) => EvalFrame(cfg, st, e);
      case Matches(e, _) => EvalFrame(cfg, st, e);
      case Cmp(a, _, b) =>
        EvalFrame(cfg, st, a);
        EvalFrame(cfg, Eval(cfg, st, a).st, b);
      case And(l, r) =>
        GuardFrame(cfg, st, l);
        GuardFrame(cfg, EvalGuard(cfg, st, l).st, r);
      case Or(l, r) =>
        GuardFrame(cfg, st, l);
        GuardFrame(cfg, EvalGuard(cfg, st, l).st, r);
      case Not(h) => GuardFrame(cfg, st, h);
    }
  }

  // ----- what no step undoes: capabilities keep their terms, signals are only consumed -----

  // Nobody consents to more during the run.
  predicate NeverResumed(signals: seq<Signal>) {
    forall s :: s in signals ==> s.Abort?
  }

  predicate SameTerms(g: Grant, h: Grant) {
    && g.Keys == h.Keys
    && forall f :: f in g ==>
         g[f].verbs == h[f].verbs && g[f].expires == h[f].expires && g[f].left.Keys == h[f].left.Keys
  }

  ghost predicate Held(a: seq<Grant>, b: seq<Grant>) {
    |a| <= |b| && forall k :: 0 <= k < |a| ==> SameTerms(a[k], b[k])
  }

  ghost predicate Onward(a: RunState, b: RunState) {
    && Held(a.grants, b.grants) && a.calls <= b.calls
    && (NeverResumed(a.signals) ==> NeverResumed(b.signals) && |b.grants| == |a.grants|)
  }

  lemma OnwardTransitive(a: RunState, b: RunState, c: RunState)
    requires Onward(a, b) && Onward(b, c)
    ensures Onward(a, c)
  {
    hide SameTerms;
    forall k | 0 <= k < |a.grants|
      ensures SameTerms(a.grants[k], c.grants[k])
    {
      TermsTransitive(a.grants[k], b.grants[k], c.grants[k]);
    }
  }

  lemma TermsTransitive(f: Grant, g: Grant, h: Grant)
    requires SameTerms(f, g) && SameTerms(g, h)
    ensures SameTerms(f, h)
  {
  }

  // Only grants, signals and calls matter.
  lemma OnwardFrame(a: RunState, b: RunState, c: RunState)
    requires Onward(a, b) && c.grants == b.grants && c.signals == b.signals && c.calls == b.calls
    ensures Onward(a, c)
  {
  }

  lemma Still(a: RunState, b: RunState)
    requires b.grants == a.grants && b.signals == a.signals && b.calls == a.calls
    ensures Onward(a, b)
  {
  }

  lemma {:induction false} ExerciseHolds(cfg: Config, n: nat, grants: seq<Grant>, v: VerbId, i: nat, last: Gate)
    requires i <= |grants| && !last.Open?
    ensures var r := Exercise(cfg, n, grants, v, i, last);
            r.Open? ==> Held(grants, r.grants) && |r.grants| == |grants|
    decreases |grants| - i
  {
    if i < |grants| {
      ExerciseHolds(cfg, n, grants, v, i + 1, last);
      ExerciseHolds(cfg, n, grants, v, i + 1, Expired);
      ExerciseHolds(cfg, n, grants, v, i + 1, BudgetExhausted);
    }
  }

  lemma InvokeOnward(cfg: Config, st: RunState, v: VerbId)
    ensures Onward(st, InvokeState(cfg, st, v))
  {
    hide Exercise;
    ExerciseHolds(cfg, st.calls, st.grants, v, 0, NoCapability);
  }

  lemma {:induction false} EvalOnward(cfg: Config, st: RunState, e: Expr)
    ensures Onward(st, Eval(cfg, st, e).st)
    decreases e, 0
  {
    hide Exercise, Onward, Gated;
    Still(st, st);
    match e {
      case Observe(verb, args) =>
        if verb in cfg.schemas.observe {
          ArgsOnward(cfg, st, args, cfg.schemas.observe[verb]);
          var a := EvalArgs(cfg, st, args, cfg.schemas.observe[verb]).st;
          InvokeOnward(cfg, a, verb);
          OnwardTransitive(st, a, InvokeState(cfg, a, verb));
        }
      case Pure(func, args) =>
        ArgsOnward(cfg, st, args, PUBLIC);
        var a := EvalArgs(cfg, st, args, PUBLIC).st;
        InvokeOnward(cfg, a, COMPUTE);
        OnwardTransitive(st, a, InvokeState(cfg, a, COMPUTE));
      case Const(v) =>
      case Var(x) =>
      case Index(base, i) => EvalOnward(cfg, st, base);
    }
  }

  lemma {:induction false} ArgsOnward(cfg: Config, st: RunState, args: seq<Expr>, base: Label)
    ensures Onward(st, EvalArgs(cfg, st, args, base).st)
    decreases args, 0
  {
    hide Eval, Onward;
    if args == [] {
      Still(st, st);
    } else {
      var n := |args| - 1;
      ArgsOnward(cfg, st, args[..n], base);
      var a := EvalArgs(cfg, st, args[..n], base).st;
      EvalOnward(cfg, a, args[n]);
      OnwardTransitive(st, a, Eval(cfg, a, args[n]).st);
    }
  }

  lemma {:induction false} GuardOnward(cfg: Config, st: RunState, g: Guard)
    ensures Onward(st, EvalGuard(cfg, st, g).st)
    decreases g, 1
  {
    hide Eval, Onward;
    match g {
      case Exists(e) => EvalOnward(cfg, st, e);
      case Matches(e, _) => EvalOnward(cfg, st, e);
      case Cmp(l, _, r) =>
        EvalOnward(cfg, st, l);
        var a := Eval(cfg, st, l).st;
        EvalOnward(cfg, a, r);
        OnwardTransitive(st, a, Eval(cfg, a, r).st);
      case And(l, r) => PairOnward(cfg, st, g);
      case Or(l, r) => PairOnward(cfg, st, g);
      case Not(h) => GuardOnward(cfg, st, h);
    }
  }

  lemma {:induction false} PairOnward(cfg: Config, st: RunState, g: Guard)
    requires g.And? || g.Or?
    ensures Onward(st, EvalGuard(cfg, st, g).st)
    decreases g, 0
  {
    hide Onward;
    GuardOnward(cfg, st, g.l);
    var a := EvalGuard(cfg, st, g.l).st;
    GuardOnward(cfg, a, g.r);
    OnwardTransitive(st, a, EvalGuard(cfg, a, g.r).st);
  }

  lemma ParkOnward(st: RunState)
    ensures Onward(st, Park(st).st) && Park(st).st.env == st.env
    ensures NeverResumed(st.signals) ==> Park(st).res.Err?
  {
    hide Mint, Only;
    if st.signals != [] {
      assert forall s :: s in st.signals[1..] ==> s in st.signals;
      assert st.signals[0] in st.signals;
    }
    var b := Park(st).st;
    forall k | 0 <= k < |st.grants|
      ensures SameTerms(st.grants[k], b.grants[k])
    {
      assert b.grants[k] == st.grants[k];
    }
  }

  lemma {:induction false} EmitOnward(cfg: Config, st: RunState, v: VerbId, target: Name, arg: Value, low: Label,
                                      remaining: nat)
    ensures Onward(st, Emit(cfg, st, v, target, arg, low, remaining).st)
    decreases |st.signals|
  {
    hide Exercise, Onward, Park, Gated;
    var after := InvokeState(cfg, st, v);
    InvokeOnward(cfg, st, v);
    match Invoke(cfg, st, v, arg) {
      case Got(_) => OnwardFrame(st, after, Logged(after, v, target, low));
      case CallBroke =>
      case GateRefused =>
        if CurrentMode(st).Escalate? {
          ParkOnward(after);
          var p := Park(after);
          OnwardTransitive(st, after, p.st);
          if p.res.Ok? {
            ParkConsumes(after);
            EmitOnward(cfg, p.st, v, target, arg, low, remaining);
            OnwardTransitive(st, p.st, Emit(cfg, p.st, v, target, arg, low, remaining).st);
          }
        }
    }
  }

  lemma ParkConsumes(st: RunState)
    requires Park(st).res.Ok?
    ensures |Park(st).st.signals| < |st.signals|
  {
    hide Mint;
  }

  lemma EffectOnward(cfg: Config, st: RunState, v: VerbId, args: seq<Expr>, pc: Label, remaining: nat)
    ensures Onward(st, ExecEffect(cfg, st, v, args, pc, remaining).st)
  {
    hide EvalArgs, Emit, Onward, NextNum;
    ArgsOnward(cfg, st, args, pc);
    var a := EvalArgs(cfg, st, args, pc);
    if a.res.Ok? {
      var arg, low := EffectArg(a.res.value.vals), a.res.value.taint;
      if cfg.withhold(v, arg) {
        OnwardFrame(st, a.st, Withhold(cfg, a.st, v, arg, low).st);
      } else {
        EmitOnward(cfg, a.st, v, cfg.target(v, arg), arg, low, remaining);
        OnwardTransitive(st, a.st, Emit(cfg, a.st, v, cfg.target(v, arg), arg, low, remaining).st);
      }
    }
  }

  lemma {:induction false} ListOnward(cfg: Config, st: RunState, stmts: seq<Stmt>, pc: Label, total: nat)
    requires |stmts| <= total
    ensures Onward(st, ExecList(cfg, st, stmts, pc, total).st)
    decreases stmts, 0
  {
    hide ExecStmt, Onward;
    if stmts == [] {
      Still(st, st);
    } else {
      var n := |stmts| - 1;
      ListOnward(cfg, st, stmts[..n], pc, total);
      var front := ExecList(cfg, st, stmts[..n], pc, total).st;
      StmtOnward(cfg, front, stmts[n], pc, total - n);
      OnwardTransitive(st, front, ExecStmt(cfg, front, stmts[n], pc, total - n).st);
    }
  }

  lemma {:induction false} StmtOnward(cfg: Config, st: RunState, s: Stmt, pc: Label, remaining: nat)
    ensures Onward(st, ExecStmt(cfg, st, s, pc, remaining).st)
    decreases s, 0
  {
    hide Eval, EvalGuard, ExecEffect, ExecItems, ExecList, Onward, Admitted;
    var st1 := st.(steps := st.steps + 1);
    Still(st, st1);
    match s {
      case Let(x, e) =>
        EvalOnward(cfg, st1, e);
        OnwardTransitive(st, st1, Eval(cfg, st1, e).st);
        OnwardFrame(st, Eval(cfg, st1, e).st, ExecStmt(cfg, st, s, pc, remaining).st);
      case Effect(verb, args) =>
        EffectOnward(cfg, st1, verb, args, pc, remaining);
        OnwardTransitive(st, st1, ExecEffect(cfg, st1, verb, args, pc, remaining).st);
      case If(g, a, b) =>
        GuardOnward(cfg, st1, g);
        var v := EvalGuard(cfg, st1, g);
        OnwardTransitive(st, st1, v.st);
        if v.res.Ok? {
          var arm, pc2 := if v.res.value.holds then a else b, pc.Join(v.res.value.taint);
          ListOnward(cfg, v.st, arm, pc2, |arm|);
          OnwardTransitive(st, v.st, ExecList(cfg, v.st, arm, pc2, |arm|).st);
        }
      case Foreach(x, list, bound, mode, body) => LoopOnward(cfg, st, s, pc, remaining);
    }
  }

  lemma {:induction false} LoopOnward(cfg: Config, st: RunState, s: Stmt, pc: Label, remaining: nat)
    requires s.Foreach?
    ensures Onward(st, ExecStmt(cfg, st, s, pc, remaining).st)
    decreases s, 0, 0
  {
    hide Eval, ExecItems, Onward, Park;
    var st1 := st.(steps := st.steps + 1);
    Still(st, st1);
    EvalOnward(cfg, st1, s.list);
    var l := Eval(cfg, st1, s.list);
    OnwardTransitive(st, st1, l.st);
    if l.res.Ok? {
      var items, taint := l.res.value.value.Items(), l.res.value.taint;
      var admitted := Admitted(l.st, |items|, s.bound, s.mode);
      ParkOnward(l.st);
      Still(l.st, l.st);
      OnwardTransitive(st, l.st, admitted.st);
      if admitted.res.Ok? {
        var inner := admitted.st.(modes := admitted.st.modes + [s.mode]);
        OnwardFrame(st, admitted.st, inner);
        var taken := items[..admitted.res.value];
        ItemsOnward(cfg, inner, s.item, taken, taint, s.body, pc.Join(taint));
        var r := ExecItems(cfg, inner, s.item, taken, taint, s.body, pc.Join(taint));
        OnwardTransitive(st, inner, r.st);
        OnwardFrame(st, r.st, r.st.(modes := PopMode(r.st.modes)));
      }
    }
  }

  lemma {:induction false} ItemsOnward(cfg: Config, st: RunState, x: Name, items: seq<Value>, taint: Label,
                                       body: seq<Stmt>, pc: Label)
    ensures Onward(st, ExecItems(cfg, st, x, items, taint, body, pc).st)
    decreases body, |items| + 2
  {
    hide ExecList, Onward;
    if items == [] {
      Still(st, st);
    } else {
      var n := |items| - 1;
      ItemsOnward(cfg, st, x, items[..n], taint, body, pc);
      var front := ExecItems(cfg, st, x, items[..n], taint, body, pc);
      if front.res.Ok? {
        var next := front.st.(env := front.st.env[x := Tagged(items[n], taint)]);
        OnwardFrame(st, front.st, next);
        ListOnward(cfg, next, body, pc, |body|);
        OnwardTransitive(st, next, ExecList(cfg, next, body, pc, |body|).st);
      }
    }
  }
}
