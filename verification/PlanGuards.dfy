// Guards and the branches they decide.

module PlanGuards {
  import opened Prelude
  import opened PlanShapes
  import opened PlanIr
  import opened PlanCheck
  import opened PlanSemantics

  // What is there: everything but null and the empty list.
  lemma ExistsExact(cfg: Config, st: RunState, v: Value)
    ensures var r := EvalGuard(cfg, st, Exists(Const(v)));
            && r.st == st && r.res.Ok?
            && (r.res.value.holds <==>
                  match v
                  case Null => false
                  case List(items) => |items| > 0
                  case Flag(_) => true
                  case Num(_) => true
                  case Text(_) => true
                  case Object(_) => true)
  {
  }

  // A pattern matches texts only; anything else is tried as the empty text for its syntax alone.
  lemma MatchesExact(cfg: Config, st: RunState, v: Value, regex: string)
    ensures var r := EvalGuard(cfg, st, Matches(Const(v), regex));
            && r.st == st
            && (v.Text? ==>
                  match cfg.matches(regex, v.s)
                  case Some(m) => r.res.Ok? && r.res.value.holds == m
                  case None => r.res == Err(FailStop(BadRegex)))
            && (!v.Text? && r.res.Ok? ==> !r.res.value.holds)
  {
  }

  // Both sides in order, the second in the state the first leaves, whatever the first says.
  lemma PairExact(cfg: Config, st: RunState, g: Guard, h: Guard)
    ensures var a := EvalGuard(cfg, st, g);
            var b := EvalGuard(cfg, a.st, h);
            var both, either := EvalGuard(cfg, st, And(g, h)), EvalGuard(cfg, st, Or(g, h));
            if a.res.Err? then both == a && either == a
            else
              && both.st == b.st && either.st == b.st
              && (b.res.Err? ==> both.res == b.res && either.res == b.res)
              && (b.res.Ok? ==>
                    && both.res.Ok? && either.res.Ok?
                    && (both.res.value.holds <==> a.res.value.holds && b.res.value.holds)
                    && (either.res.value.holds <==> a.res.value.holds || b.res.value.holds)
                    && both.res.value.taint == either.res.value.taint
                    && a.res.value.taint.Leq(both.res.value.taint) && b.res.value.taint.Leq(both.res.value.taint))
  {
    hide Eval;
    assert And(g, h).l == g && And(g, h).r == h && Or(g, h).l == g && Or(g, h).r == h;
  }

  lemma NotExact(cfg: Config, st: RunState, g: Guard)
    ensures var a, n := EvalGuard(cfg, st, g), EvalGuard(cfg, st, Not(g));
            && n.st == a.st && (a.res.Err? ==> n.res == a.res)
            && (a.res.Ok? ==>
                  && n.res.Ok? && n.res.value.holds != a.res.value.holds
                  && n.res.value.taint == a.res.value.taint)
  {
    hide Eval;
  }

  // De Morgan holds of whole evaluations: the same calls, the same label, the same verdict or stop.
  lemma DeMorgan(cfg: Config, st: RunState, g: Guard, h: Guard)
    ensures EvalGuard(cfg, st, Not(And(g, h))) == EvalGuard(cfg, st, Or(Not(g), Not(h)))
    ensures EvalGuard(cfg, st, Not(Or(g, h))) == EvalGuard(cfg, st, And(Not(g), Not(h)))
  {
    hide EvalGuard;
    var a := EvalGuard(cfg, st, g);
    NotUnfolds(cfg, st, g);
    NotUnfolds(cfg, a.st, h);
    NotUnfolds(cfg, st, And(g, h));
    NotUnfolds(cfg, st, Or(g, h));
    PairUnfolds(cfg, st, g, h);
    PairUnfolds(cfg, st, Not(g), Not(h));
  }

  lemma NotUnfolds(cfg: Config, st: RunState, g: Guard)
    ensures var a := EvalGuard(cfg, st, g);
            EvalGuard(cfg, st, Not(g)) ==
              Run(a.st, if a.res.Err? then a.res else Ok(Verdict(!a.res.value.holds, a.res.value.taint)))
  {
    hide Eval;
  }

  lemma PairUnfolds(cfg: Config, st: RunState, g: Guard, h: Guard)
    ensures var a := EvalGuard(cfg, st, g);
            var b := EvalGuard(cfg, a.st, h);
            var both, either := EvalGuard(cfg, st, And(g, h)), EvalGuard(cfg, st, Or(g, h));
            if a.res.Err? then both == a && either == a
            else if b.res.Err? then both == b && either == b
            else
              var x, y := a.res.value, b.res.value;
              && both == Run(b.st, Ok(Verdict(x.holds && y.holds, x.taint.Join(y.taint))))
              && either == Run(b.st, Ok(Verdict(x.holds || y.holds, x.taint.Join(y.taint))))
  {
    hide Eval;
    assert And(g, h).l == g && And(g, h).r == h && Or(g, h).l == g && Or(g, h).r == h;
  }

  // A branch runs its first arm exactly when its guard holds, and its second when not, after the
  // guard and under its label.
  lemma BranchExact(cfg: Config, st: RunState, g: Guard, a: seq<Stmt>, b: seq<Stmt>, pc: Label)
    ensures var v := EvalGuard(cfg, st.(steps := st.steps + 1), g);
            var r := ExecBlock(cfg, st, [If(g, a, b)], pc);
            match v.res
            case Err(o) => r == Run(v.st, Err(o))
            case Ok(x) =>
              r == ExecBlock(cfg, v.st, if x.holds then a else b,
                     Label(pc.conf + x.taint.conf, pc.integ + x.taint.integ))
  {
    hide EvalGuard;
    BlockOfOne(cfg, st, If(g, a, b), pc);
  }

  lemma BlockOfOne(cfg: Config, st: RunState, s: Stmt, pc: Label)
    ensures ExecBlock(cfg, st, [s], pc) == ExecStmt(cfg, st, s, pc, 1)
  {
    hide ExecStmt;
    assert [s][..0] == [];
    assert ExecList(cfg, st, [s][..0], pc, 1) == Run(st, Ok(()));
  }

  // Negating a guard swaps its arms, and changes nothing else about the run.
  lemma NotSwapsArms(cfg: Config, st: RunState, g: Guard, a: seq<Stmt>, b: seq<Stmt>, pc: Label)
    ensures ExecBlock(cfg, st, [If(Not(g), a, b)], pc) == ExecBlock(cfg, st, [If(g, b, a)], pc)
  {
    hide EvalGuard, ExecList;
    BlockOfOne(cfg, st, If(Not(g), a, b), pc);
    BlockOfOne(cfg, st, If(g, b, a), pc);
    NotUnfolds(cfg, st.(steps := st.steps + 1), g);
  }
}
