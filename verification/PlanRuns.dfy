// Runs against the static analysis: steps, effect paths and effect counts.

module PlanRuns {
  import opened Prelude
  import opened PlanShapes
  import opened PlanIr
  import opened PlanCheck
  import opened PlanSemantics
  import opened PlanFrames
  import C = Coeffect

  // ----- effects follow a path of the projected plan -----

  // `u` was added to the trace; it is a prefix of the path `w`, all of it when the run went on.
  ghost predicate Follows(st: RunState, r: Run<()>, plan: Plan, u: Path, w: Path) {
    && r.st.trace == st.trace + u
    && u <= w && IsPath(plan, w)
    && (r.res.Ok? ==> u == w)
  }

  lemma {:induction false} EmitTrace(cfg: Config, st: RunState, v: VerbId, target: Name, arg: Value, low: Label,
                                     remaining: nat)
    ensures var r := Emit(cfg, st, v, target, arg, low, remaining);
            && r.st.steps == st.steps && r.st.env == st.env && r.st.modes == st.modes
            && r.st.trace == (if r.res.Ok? then st.trace + [v] else st.trace)
            && r.st.notes == (if r.res.Ok? then st.notes + [Note(low, false)] else st.notes)
    decreases |st.signals|
  {
    hide Exercise, Mint;
    var after := InvokeState(cfg, st, v);
    if Invoke(cfg, st, v, arg).GateRefused? && CurrentMode(st).Escalate? && Park(after).res.Ok? {
      EmitTrace(cfg, Park(after).st, v, target, arg, low, remaining);
    }
  }

  lemma EffectTrace(cfg: Config, st: RunState, v: VerbId, args: seq<Expr>, pc: Label, remaining: nat)
    ensures var r := ExecEffect(cfg, st, v, args, pc, remaining);
            && r.st.steps == st.steps && r.st.env == st.env && r.st.modes == st.modes
            && r.st.trace == if r.res.Ok? then st.trace + [v] else st.trace
  {
    hide Emit, EvalArgs, NextNum;
    ArgsFrame(cfg, st, args, pc);
    var a := EvalArgs(cfg, st, args, pc);
    if a.res.Ok? {
      var arg := EffectArg(a.res.value.vals);
      EmitTrace(cfg, a.st, v, cfg.target(v, arg), arg, a.res.value.taint, remaining);
    }
  }

  // An escalating loop overruns its bound only after a resume.
  lemma TakesWithinBound(st: RunState, n: nat, bound: nat, mode: Mode)
    requires !mode.Escalate? || NeverResumed(st.signals)
    ensures var r := Admitted(st, n, bound, mode);
            r.res.Ok? ==> r.res.value <= bound && r.st == st
  {
    ParkOnward(st);
  }

  lemma AdmittedFrame(st: RunState, n: nat, bound: nat, mode: Mode)
    ensures var r := Admitted(st, n, bound, mode).st;
            r.steps == st.steps && r.trace == st.trace && r.notes == st.notes
  {
    hide Mint;
  }

  lemma {:induction false} ListFollows(cfg: Config, st: RunState, stmts: seq<Stmt>, pc: Label, total: nat)
    returns (u: Path, w: Path)
    requires |stmts| <= total && (EscalateFree(stmts) || NeverResumed(st.signals))
    ensures Follows(st, ExecList(cfg, st, stmts, pc, total), Shape(stmts), u, w)
    decreases stmts, 0
  {
    hide ExecStmt, IsPath, IsSeqPath;
    if stmts == [] {
      u, w := [], [];
      EmptyShape();
    } else {
      var n := |stmts| - 1;
      var front := ExecList(cfg, st, stmts[..n], pc, total);
      var u1, w1 := ListFollows(cfg, st, stmts[..n], pc, total);
      ShapeSnoc(stmts);
      var last := FromNode(NodeOf(stmts[n]));
      if front.res.Err? {
        var x := SomePath(last);
        ShapeGrows(stmts, w1, x);
        u, w := u1, w1 + x;
      } else {
        ListOnward(cfg, st, stmts[..n], pc, total);
        var u2, w2 := StmtFollows(cfg, front.st, stmts[n], pc, total - n);
        ShapeGrows(stmts, w1, w2);
        u, w := u1 + u2, w1 + w2;
      }
    }
  }

  lemma EmptyShape()
    ensures IsPath(Shape([]), [])
  {
  }

  lemma ShapeGrows(stmts: seq<Stmt>, t: Path, x: Path)
    requires stmts != [] && IsPath(Shape(stmts[..|stmts| - 1]), t) && IsPath(FromNode(NodeOf(stmts[|stmts| - 1])), x)
    ensures IsPath(Shape(stmts), t + x)
  {
    ShapeSnoc(stmts);
    SeqPathGrows(Shape(stmts[..|stmts| - 1]).items, FromNode(NodeOf(stmts[|stmts| - 1])), t, x);
  }

  lemma {:induction false} StmtFollows(cfg: Config, st: RunState, s: Stmt, pc: Label, remaining: nat)
    returns (u: Path, w: Path)
    requires StmtEscalateFree(s) || NeverResumed(st.signals)
    ensures Follows(st, ExecStmt(cfg, st, s, pc, remaining), FromNode(NodeOf(s)), u, w)
    decreases s, 0
  {
    hide Eval, EvalGuard, ExecEffect, ExecItems, ExecList;
    var st1 := st.(steps := st.steps + 1);
    match s {
      case Let(x, e) =>
        EvalFrame(cfg, st1, e);
        u, w := [], [];
        assert IsPath(Seq([]), w);
      case Effect(verb, args) =>
        EffectTrace(cfg, st1, verb, args, pc, remaining);
        w := [verb];
        u := if ExecEffect(cfg, st1, verb, args, pc, remaining).res.Ok? then w else [];
      case If(g, a, b) =>
        GuardFrame(cfg, st1, g);
        var v := EvalGuard(cfg, st1, g);
        if v.res.Err? {
          u := [];
          w := SomePath(Branch(Shape(a), Shape(b)));
        } else if v.res.value.holds {
          u, w := ListFollows(cfg, v.st, a, pc.Join(v.res.value.taint), |a|);
          assert IsPath(Branch(Shape(a), Shape(b)), w);
        } else {
          u, w := ListFollows(cfg, v.st, b, pc.Join(v.res.value.taint), |b|);
          assert IsPath(Branch(Shape(a), Shape(b)), w);
        }
      case Foreach(x, list, bound, mode, body) =>
        u, w := LoopFollows(cfg, st, s, pc, remaining);
    }
  }

  lemma {:induction false} LoopFollows(cfg: Config, st: RunState, s: Stmt, pc: Label, remaining: nat)
    returns (u: Path, w: Path)
    requires s.Foreach? && (StmtEscalateFree(s) || NeverResumed(st.signals))
    ensures Follows(st, ExecStmt(cfg, st, s, pc, remaining), FromNode(NodeOf(s)), u, w)
    decreases s, 0, 0
  {
    hide Eval, ExecItems, ExecList, IsRounds, ToAstNodes, FromAst, Admitted;
    var st1 := st.(steps := st.steps + 1);
    var plan := FromNode(NodeOf(s));
    assert plan == Loop(s.bound, Shape(s.body));
    EvalFrame(cfg, st1, s.list);
    var l := Eval(cfg, st1, s.list);
    if l.res.Ok? {
      TakesWithinBound(l.st, |l.res.value.value.Items()|, s.bound, s.mode);
      AdmittedFrame(l.st, |l.res.value.value.Items()|, s.bound, s.mode);
    }
    NoRounds(Shape(s.body), []);
    assert IsLoopPath(Shape(s.body), s.bound, []);
    if l.res.Err? || Admitted(l.st, |l.res.value.value.Items()|, s.bound, s.mode).res.Err? {
      u, w := [], [];
    } else {
      var items := l.res.value.value.Items();
      var take := Admitted(l.st, |items|, s.bound, s.mode).res.value;
      var inner := l.st.(modes := l.st.modes + [s.mode]);
      u, w := ItemsFollow(cfg, inner, s.item, items[..take], l.res.value.taint, s.body, pc.Join(l.res.value.taint));
      assert IsLoopPath(Shape(s.body), s.bound, w);
    }
  }

  // `u` is a prefix of some rounds of the body, all of `|items|` when the loop went on.
  lemma {:induction false} ItemsFollow(cfg: Config, st: RunState, x: Name, items: seq<Value>, taint: Label,
                                       body: seq<Stmt>, pc: Label)
    returns (u: Path, w: Path)
    requires EscalateFree(body) || NeverResumed(st.signals)
    ensures var r := ExecItems(cfg, st, x, items, taint, body, pc);
            && r.st.trace == st.trace + u && u <= w && IsRounds(Shape(body), |items|, w) && (r.res.Ok? ==> u == w)
    decreases body, |items| + 2
  {
    hide ExecList, IsRounds, IsPath, Shape;
    if items == [] {
      u, w := [], [];
      NoRounds(Shape(body), w);
    } else {
      var n := |items| - 1;
      var front := ExecItems(cfg, st, x, items[..n], taint, body, pc);
      var u1, w1 := ItemsFollow(cfg, st, x, items[..n], taint, body, pc);
      if front.res.Err? {
        var y := SomePath(Shape(body));
        RoundsGrow(Shape(body), n, w1, y);
        u, w := u1, w1 + y;
      } else {
        ItemsOnward(cfg, st, x, items[..n], taint, body, pc);
        var u2, w2 := ListFollows(cfg, front.st.(env := front.st.env[x := Tagged(items[n], taint)]), body, pc, |body|);
        RoundsGrow(Shape(body), n, w1, w2);
        u, w := u1 + u2, w1 + w2;
      }
    }
  }

  // ----- the step ceiling -----

  lemma {:induction false} ListSteps(cfg: Config, st: RunState, stmts: seq<Stmt>, pc: Label, total: nat)
    requires |stmts| <= total && (EscalateFree(stmts) || NeverResumed(st.signals))
    ensures ExecList(cfg, st, stmts, pc, total).st.steps <= st.steps + Steps(stmts)
    decreases stmts, 0
  {
    hide ExecStmt, StmtSteps;
    if stmts != [] {
      var n := |stmts| - 1;
      var front := ExecList(cfg, st, stmts[..n], pc, total);
      ListSteps(cfg, st, stmts[..n], pc, total);
      if front.res.Ok? {
        ListOnward(cfg, st, stmts[..n], pc, total);
        StmtStepsWithin(cfg, front.st, stmts[n], pc, total - n);
      }
    }
  }

  lemma {:induction false} StmtStepsWithin(cfg: Config, st: RunState, s: Stmt, pc: Label, remaining: nat)
    requires StmtEscalateFree(s) || NeverResumed(st.signals)
    ensures ExecStmt(cfg, st, s, pc, remaining).st.steps <= st.steps + StmtSteps(s)
    decreases s, 0
  {
    hide Eval, EvalGuard, ExecEffect, ExecItems, ExecList;
    var st1 := st.(steps := st.steps + 1);
    match s {
      case Let(x, e) => EvalFrame(cfg, st1, e);
      case Effect(verb, args) => EffectTrace(cfg, st1, verb, args, pc, remaining);
      case If(g, a, b) =>
        GuardFrame(cfg, st1, g);
        var v := EvalGuard(cfg, st1, g);
        if v.res.Ok? {
          var arm := if v.res.value.holds then a else b;
          ListSteps(cfg, v.st, arm, pc.Join(v.res.value.taint), |arm|);
        }
      case Foreach(x, list, bound, mode, body) => LoopStepsWithin(cfg, st, s, pc, remaining);
    }
  }

  lemma {:induction false} LoopStepsWithin(cfg: Config, st: RunState, s: Stmt, pc: Label, remaining: nat)
    requires s.Foreach? && (StmtEscalateFree(s) || NeverResumed(st.signals))
    ensures ExecStmt(cfg, st, s, pc, remaining).st.steps <= st.steps + StmtSteps(s)
    decreases s, 0, 0
  {
    hide Eval, ExecItems, Admitted;
    var st1 := st.(steps := st.steps + 1);
    EvalFrame(cfg, st1, s.list);
    var l := Eval(cfg, st1, s.list);
    C.ScaleMonotone(0, s.bound, Steps(s.body), Steps(s.body));
    if l.res.Ok? {
      var items := l.res.value.value.Items();
      TakesWithinBound(l.st, |items|, s.bound, s.mode);
      AdmittedFrame(l.st, |items|, s.bound, s.mode);
      if Admitted(l.st, |items|, s.bound, s.mode).res.Ok? {
        var take := Admitted(l.st, |items|, s.bound, s.mode).res.value;
        var inner := l.st.(modes := l.st.modes + [s.mode]);
        ItemsStepsWithin(cfg, inner, s.item, items[..take], l.res.value.taint, s.body, pc.Join(l.res.value.taint));
        C.ScaleMonotone(take, s.bound, Steps(s.body), Steps(s.body));
      }
    }
  }

  lemma {:induction false} ItemsStepsWithin(cfg: Config, st: RunState, x: Name, items: seq<Value>, taint: Label,
                                            body: seq<Stmt>, pc: Label)
    requires EscalateFree(body) || NeverResumed(st.signals)
    ensures ExecItems(cfg, st, x, items, taint, body, pc).st.steps <= st.steps + |items| * Steps(body)
    decreases body, |items| + 2
  {
    hide ExecList, Steps;
    if items != [] {
      var n := |items| - 1;
      var front := ExecItems(cfg, st, x, items[..n], taint, body, pc);
      ItemsStepsWithin(cfg, st, x, items[..n], taint, body, pc);
      if front.res.Ok? {
        ItemsOnward(cfg, st, x, items[..n], taint, body, pc);
        ListSteps(cfg, front.st.(env := front.st.env[x := Tagged(items[n], taint)]), body, pc, |body|);
      }
      assert n * Steps(body) + Steps(body) == |items| * Steps(body);
    }
  }

  // ----- emitted plus withheld, verb by verb -----

  function CountOf(t: Path, v: VerbId): nat {
    if t == [] then 0 else CountOf(t[..|t| - 1], v) + (if t[|t| - 1] == v then 1 else 0)
  }

  // The effect class of one verb alone.
  function Alone(v: VerbId): C.Lookup {
    l => C.Requires({}, {}, if l == v then map["it" := 1] else map[])
  }

  lemma {:induction false} CountIsUse(t: Path, v: VerbId)
    ensures C.Uses(t, Alone(v), "it") == CountOf(t, v)
  {
    if t != [] {
      CountIsUse(t[..|t| - 1], v);
    }
  }

  lemma {:induction false} CountConcat(t: Path, u: Path, v: VerbId)
    ensures CountOf(t + u, v) == CountOf(t, v) + CountOf(u, v)
    decreases |u|
  {
    if u == [] {
      assert t + u == t;
    } else {
      var n := |u| - 1;
      assert (t + u)[..|t + u| - 1] == t + u[..n];
      CountConcat(t, u[..n], v);
    }
  }

  // A path of the projected plan performs no verb more often than it occurs.
  lemma PathWithinOcc(stmts: seq<Stmt>, v: VerbId, w: Path)
    requires IsPath(Shape(stmts), w)
    ensures CountOf(w, v) <= Occ(stmts, v)
  {
    CountIsUse(w, v);
    C.PathWithin(Shape(stmts), Alone(v), "it", w);
    C.SumDominates(Shape(stmts), Alone(v), "it");
    OccIsDemand(stmts, Alone(v), v, "it");
  }

  // Unless an escalating loop was resumed: whatever the world answers and however the run ends,
  // it executes at most the static step count and performs each effect verb at most as often as
  // the budget says.
  lemma RunWithinBounds(cfg: Config, st: RunState, stmts: seq<Stmt>, pc: Label)
    requires EscalateFree(stmts) || NeverResumed(st.signals)
    requires st.steps == 0 && st.trace == []
    ensures var end := ExecBlock(cfg, st, stmts, pc).st;
            && end.steps <= Steps(stmts)
            && forall v :: CountOf(end.trace, v) <= Occ(stmts, v)
  {
    ListSteps(cfg, st, stmts, pc, |stmts|);
    var u, w := ListFollows(cfg, st, stmts, pc, |stmts|);
    var end := ExecBlock(cfg, st, stmts, pc).st;
    assert [] + u == u;
    forall v
      ensures CountOf(end.trace, v) <= Occ(stmts, v)
    {
      PathWithinOcc(stmts, v, w);
      CountConcat(u, w[|u|..], v);
      assert w == u + w[|u|..];
    }
  }
}
