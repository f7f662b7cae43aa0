// The labels a run meets, statement by statement, against those the walk derived there.

module PlanSights {
  import opened Prelude
  import opened PlanShapes
  import opened PlanIr
  import opened PlanCheck
  import opened PlanAnnotations
  import opened PlanAdmission
  import opened PlanSemantics
  import opened PlanFrames
  import opened PlanRuns
  import opened PlanBudget
  import opened PlanStart
  import opened PlanLabels

  // A statement with the label of what it evaluates (the expression of a let, the guard of a
  // branch, the list and so the variable of a loop, the effective label of an effect) and the
  // program counter it runs under.
  datatype Sight = Sight(stmt: Stmt, mark: Label, pc: Label)

  // ----- what the walk derives -----

  function Marks(sch: Schemas, env: Labels, stmts: seq<Stmt>, pc: Label): seq<Sight>
    requires LabelPass(sch, env, stmts, pc).Some?
    decreases stmts, 0
  {
    if stmts == [] then []
    else
      var n := |stmts| - 1;
      Marks(sch, env, stmts[..n], pc) + StmtMarks(sch, LabelPass(sch, env, stmts[..n], pc).value, stmts[n], pc)
  }

  function StmtLabel(sch: Schemas, env: Labels, s: Stmt, pc: Label): Label
    requires LabelStmt(sch, env, s, pc).Some?
  {
    match s
    case Let(_, e) => ExprLabel(sch, env, e).value
    case Effect(_, args) => ArgsLabel(sch, env, args, pc).value
    case If(g, _, _) => GuardLabel(sch, env, g).value
    case Foreach(_, list, _, _, _) => ExprLabel(sch, env, list).value
  }

  function StmtMarks(sch: Schemas, env: Labels, s: Stmt, pc: Label): seq<Sight>
    requires LabelStmt(sch, env, s, pc).Some?
    decreases s, 0
  {
    var l := StmtLabel(sch, env, s, pc);
    [Sight(s, l, pc)] +
    match s
    case Let(_, _) => []
    case Effect(_, _) => []
    case If(_, a, b) =>
      Marks(sch, env, a, pc.Join(l)) + Marks(sch, LabelPass(sch, env, a, pc.Join(l)).value, b, pc.Join(l))
    case Foreach(x, _, _, _, body) => Marks(sch, env[x := l], body, pc.Join(l))
  }

  // ----- what a run meets, up to where it stops -----

  function ListSights(cfg: Config, st: RunState, stmts: seq<Stmt>, pc: Label, total: nat): seq<Sight>
    requires |stmts| <= total
    decreases stmts, 0
  {
    if stmts == [] then []
    else
      var n := |stmts| - 1;
      var front := ExecList(cfg, st, stmts[..n], pc, total);
      ListSights(cfg, st, stmts[..n], pc, total) +
      if front.res.Ok? then StmtSights(cfg, front.st, stmts[n], pc, total - n) else []
  }

  function StmtSights(cfg: Config, st: RunState, s: Stmt, pc: Label, remaining: nat): seq<Sight>
    decreases s, 0
  {
    var st := st.(steps := st.steps + 1);
    match s
    case Let(_, e) =>
      (match Eval(cfg, st, e).res case Err(_) => [] case Ok(t) => [Sight(s, t.taint, pc)])
    case Effect(_, args) =>
      (match EvalArgs(cfg, st, args, pc).res case Err(_) => [] case Ok(x) => [Sight(s, x.taint, pc)])
    case If(g, a, b) =>
      var v := EvalGuard(cfg, st, g);
      (match v.res
       case Err(_) => []
       case Ok(x) =>
         var arm := if x.holds then a else b;
         [Sight(s, x.taint, pc)] + ListSights(cfg, v.st, arm, pc.Join(x.taint), |arm|))
    case Foreach(x, list, bound, mode, body) =>
      var l := Eval(cfg, st, list);
      match l.res
      case Err(_) => []
      case Ok(t) =>
        var admitted := Admitted(l.st, |t.value.Items()|, bound, mode);
        [Sight(s, t.taint, pc)] +
        match admitted.res
        case Err(_) => []
        case Ok(take) =>
          var inner := admitted.st.(modes := admitted.st.modes + [mode]);
          ItemsSights(cfg, inner, x, t.value.Items()[..take], t.taint, body, pc.Join(t.taint))
  }

  function ItemsSights(cfg: Config, st: RunState, x: Name, items: seq<Value>, taint: Label,
                       body: seq<Stmt>, pc: Label): seq<Sight>
    decreases body, |items| + 2
  {
    if items == [] then []
    else
      var n := |items| - 1;
      var front := ExecItems(cfg, st, x, items[..n], taint, body, pc);
      ItemsSights(cfg, st, x, items[..n], taint, body, pc) +
      if front.res.Ok? then
        ListSights(cfg, front.st.(env := front.st.env[x := Tagged(items[n], taint)]), body, pc, |body|)
      else []
  }

  // ----- each lies below a mark of its statement -----

  ghost predicate BelowMark(marks: seq<Sight>, seen: Sight) {
    exists m :: m in marks && m.stmt == seen.stmt && seen.mark.Leq(m.mark) && seen.pc.Leq(m.pc)
  }

  ghost predicate AllBelow(marks: seq<Sight>, seen: seq<Sight>) {
    forall x :: x in seen ==> BelowMark(marks, x)
  }

  predicate Part(some: seq<Sight>, marks: seq<Sight>) {
    forall m :: m in some ==> m in marks
  }

  lemma BelowOne(marks: seq<Sight>, seen: Sight, m: Sight)
    requires m in marks && m.stmt == seen.stmt && seen.mark.Leq(m.mark) && seen.pc.Leq(m.pc)
    ensures AllBelow(marks, [seen])
  {
    assert BelowMark(marks, seen);
  }

  lemma BelowBoth(marks: seq<Sight>, a: seq<Sight>, b: seq<Sight>)
    requires AllBelow(marks, a) && AllBelow(marks, b)
    ensures AllBelow(marks, a + b)
  {
    hide BelowMark;
  }

  lemma {:induction false} ListBelow(cfg: Config, st: RunState, stmts: seq<Stmt>, low: Label, high: Label, x: Site,
                                     marks: seq<Sight>, total: nat)
    requires |stmts| <= total && low.Leq(high) && ListAt(cfg.schemas, x, stmts, high)
    requires Covered(x.f, st.env) && Marked(x.anns, st)
    requires LabelPass(cfg.schemas, x.w, stmts, high).Some? && Part(Marks(cfg.schemas, x.w, stmts, high), marks)
    ensures AllBelow(marks, ListSights(cfg, st, stmts, low, total))
    decreases stmts, 0
  {
    hide ExecStmt, LabelStmt, StmtBindsOnce, Covered, Marked, StmtAnns, StmtMarks, AllBelow, StmtSights;
    if stmts == [] {
      NothingSeen(marks);
    } else {
      var n := |stmts| - 1;
      ListSplits(cfg.schemas, x, stmts, high);
      var mid := LabelPass(cfg.schemas, x.w, stmts[..n], high).value;
      var front := ExecList(cfg, st, stmts[..n], low, total);
      ListBelow(cfg, st, stmts[..n], low, high, x, marks, total);
      if front.res.Ok? {
        ListSound(cfg, st, stmts[..n], low, high, x, total);
        StmtBelow(cfg, front.st, stmts[n], low, high, x.(w := mid), marks, total - n);
      } else {
        NothingSeen(marks);
      }
      BelowBoth(marks, ListSights(cfg, st, stmts[..n], low, total),
                if front.res.Ok? then StmtSights(cfg, front.st, stmts[n], low, total - n) else []);
    }
  }

  lemma NothingSeen(marks: seq<Sight>)
    ensures AllBelow(marks, [])
  {
  }

  lemma {:induction false} StmtBelow(cfg: Config, st: RunState, s: Stmt, low: Label, high: Label, x: Site,
                                     marks: seq<Sight>, remaining: nat)
    requires low.Leq(high) && StmtAt(cfg.schemas, x, s, high) && Covered(x.f, st.env) && Marked(x.anns, st)
    requires LabelStmt(cfg.schemas, x.w, s, high).Some? && Part(StmtMarks(cfg.schemas, x.w, s, high), marks)
    ensures AllBelow(marks, StmtSights(cfg, st, s, low, remaining))
    decreases s, 1
  {
    hide Eval, EvalArgs, EvalGuard, ExprLabel, ArgsLabel, GuardLabel, Among, StmtAnns, AllBelow, Marked, Marks;
    hide ListSights;
    hide ItemsSights;
    var st1 := st.(steps := st.steps + 1);
    StmtAdds(cfg.schemas, x.w, s, high);
    NothingSeen(marks);
    var m := Sight(s, StmtLabel(cfg.schemas, x.w, s, high), high);
    assert m in StmtMarks(cfg.schemas, x.w, s, high);
    match s {
      case Let(_, e) =>
        ExprSound(cfg, st1, e, x.w, x.f);
        if Eval(cfg, st1, e).res.Ok? {
          BelowOne(marks, Sight(s, Eval(cfg, st1, e).res.value.taint, low), m);
        }
      case Effect(_, args) =>
        ArgsSound(cfg, st1, args, low, high, x.w, x.f);
        if EvalArgs(cfg, st1, args, low).res.Ok? {
          BelowOne(marks, Sight(s, EvalArgs(cfg, st1, args, low).res.value.taint, low), m);
        }
      case If(_, _, _) => IfBelow(cfg, st, s, low, high, x, marks, remaining);
      case Foreach(_, _, _, _, _) => LoopBelow(cfg, st, s, low, high, x, marks, remaining);
    }
  }

  lemma {:induction false} IfBelow(cfg: Config, st: RunState, s: Stmt, low: Label, high: Label, x: Site,
                                   marks: seq<Sight>, remaining: nat)
    requires s.If? && low.Leq(high) && StmtAt(cfg.schemas, x, s, high) && Covered(x.f, st.env) && Marked(x.anns, st)
    requires LabelStmt(cfg.schemas, x.w, s, high).Some? && Part(StmtMarks(cfg.schemas, x.w, s, high), marks)
    ensures AllBelow(marks, StmtSights(cfg, st, s, low, remaining))
    decreases s, 0
  {
    hide EvalGuard, GuardLabel, Marked, ListAt, StmtAt, AllBelow, ListSights;
    var st1 := st.(steps := st.steps + 1);
    var l := GuardLabel(cfg.schemas, x.w, s.guard).value;
    var high2 := high.Join(l);
    ArmsAt(cfg.schemas, x, s, high);
    var mid := LabelPass(cfg.schemas, x.w, s.thenArm, high2).value;
    ArmMarks(cfg.schemas, x, s, high, marks);
    GuardSound(cfg, st1, s.guard, x.w, x.f);
    GuardFrame(cfg, st1, s.guard);
    var v := EvalGuard(cfg, st1, s.guard);
    MarkedFrame(x.anns, st, v.st);
    NothingSeen(marks);
    if v.res.Ok? {
      var low2 := low.Join(v.res.value.taint);
      var seen := Sight(s, v.res.value.taint, low);
      BelowOne(marks, seen, Sight(s, l, high));
      if v.res.value.holds {
        ListBelow(cfg, v.st, s.thenArm, low2, high2, x, marks, |s.thenArm|);
        BelowBoth(marks, [seen], ListSights(cfg, v.st, s.thenArm, low2, |s.thenArm|));
      } else {
        ListBelow(cfg, v.st, s.elseArm, low2, high2, x.(w := mid), marks, |s.elseArm|);
        BelowBoth(marks, [seen], ListSights(cfg, v.st, s.elseArm, low2, |s.elseArm|));
      }
    }
  }

  lemma ArmMarks(sch: Schemas, x: Site, s: Stmt, high: Label, marks: seq<Sight>)
    requires s.If? && LabelStmt(sch, x.w, s, high).Some? && Part(StmtMarks(sch, x.w, s, high), marks)
    ensures var l := GuardLabel(sch, x.w, s.guard).value;
            && Sight(s, l, high) in marks
            && Part(Marks(sch, x.w, s.thenArm, high.Join(l)), marks)
            && Part(Marks(sch, LabelPass(sch, x.w, s.thenArm, high.Join(l)).value, s.elseArm, high.Join(l)), marks)
  {
    hide GuardLabel, Marks, LabelPass;
    var l := GuardLabel(sch, x.w, s.guard).value;
    var a := Marks(sch, x.w, s.thenArm, high.Join(l));
    var b := Marks(sch, LabelPass(sch, x.w, s.thenArm, high.Join(l)).value, s.elseArm, high.Join(l));
    assert StmtMarks(sch, x.w, s, high) == [Sight(s, l, high)] + (a + b);
    forall m | m == Sight(s, l, high) || m in a || m in b
      ensures m in marks
    {
      assert m in [Sight(s, l, high)] + (a + b);
    }
  }

  lemma {:induction false} LoopBelow(cfg: Config, st: RunState, s: Stmt, low: Label, high: Label, x: Site,
                                     marks: seq<Sight>, remaining: nat)
    requires s.Foreach? && low.Leq(high) && StmtAt(cfg.schemas, x, s, high)
    requires Covered(x.f, st.env) && Marked(x.anns, st)
    requires LabelStmt(cfg.schemas, x.w, s, high).Some? && Part(StmtMarks(cfg.schemas, x.w, s, high), marks)
    ensures AllBelow(marks, StmtSights(cfg, st, s, low, remaining))
    decreases s, 0
  {
    hide Eval, ExprLabel, Marked, ListAt, StmtAt, Park, AllBelow, ItemsSights;
    var st1 := st.(steps := st.steps + 1);
    BodyAt(cfg.schemas, x, s, high);
    var tag := ExprLabel(cfg.schemas, x.w, s.list).value;
    var inside := x.(w := x.w[s.item := tag], mult := x.mult * s.bound);
    BodyMarks(cfg.schemas, x, s, high, marks);
    ExprSound(cfg, st1, s.list, x.w, x.f);
    EvalFrame(cfg, st1, s.list);
    var l := Eval(cfg, st1, s.list);
    MarkedFrame(x.anns, st, l.st);
    NothingSeen(marks);
    if l.res.Ok? {
      var items, taint := l.res.value.value.Items(), l.res.value.taint;
      var seen := Sight(s, taint, low);
      BelowOne(marks, seen, Sight(s, tag, high));
      var admitted := Admitted(l.st, |items|, s.bound, s.mode);
      ParkNoSink(l.st);
      AdmittedFrame(l.st, |items|, s.bound, s.mode);
      MarkedFrame(x.anns, l.st, admitted.st);
      BelowBoth(marks, [seen], []);
      if admitted.res.Ok? {
        var inner := admitted.st.(modes := admitted.st.modes + [s.mode]);
        MarkedFrame(x.anns, admitted.st, inner);
        var taken := items[..admitted.res.value];
        ItemsBelow(cfg, inner, s.item, taken, taint, s.body, low.Join(taint), high.Join(tag), inside, marks);
        BelowBoth(marks, [seen], ItemsSights(cfg, inner, s.item, taken, taint, s.body, low.Join(taint)));
      }
    }
  }

  lemma BodyMarks(sch: Schemas, x: Site, s: Stmt, high: Label, marks: seq<Sight>)
    requires s.Foreach? && LabelStmt(sch, x.w, s, high).Some? && Part(StmtMarks(sch, x.w, s, high), marks)
    ensures var l := ExprLabel(sch, x.w, s.list).value;
            && Sight(s, l, high) in marks
            && Part(Marks(sch, x.w[s.item := l], s.body, high.Join(l)), marks)
  {
    hide ExprLabel, Marks, LabelPass;
    var l := ExprLabel(sch, x.w, s.list).value;
    var a := Marks(sch, x.w[s.item := l], s.body, high.Join(l));
    assert StmtMarks(sch, x.w, s, high) == [Sight(s, l, high)] + a;
    forall m | m == Sight(s, l, high) || m in a
      ensures m in marks
    {
      assert m in [Sight(s, l, high)] + a;
    }
  }

  lemma {:induction false} ItemsBelow(cfg: Config, st: RunState, item: Name, items: seq<Value>, taint: Label,
                                      body: seq<Stmt>, low: Label, high: Label, x: Site, marks: seq<Sight>)
    requires item in x.w && taint.Leq(x.w[item]) && low.Leq(high) && ListAt(cfg.schemas, x, body, high)
    requires SubLabels(x.w, x.f) && Covered(x.f, st.env) && Marked(x.anns, st)
    requires LabelPass(cfg.schemas, x.w, body, high).Some? && Part(Marks(cfg.schemas, x.w, body, high), marks)
    ensures AllBelow(marks, ItemsSights(cfg, st, item, items, taint, body, low))
    decreases body, |items| + 2
  {
    hide ExecList, ListAt, Marked, Marks, AllBelow, ListSights;
    if items == [] {
      NothingSeen(marks);
    } else {
      var n := |items| - 1;
      var front := ExecItems(cfg, st, item, items[..n], taint, body, low);
      var next := front.st.(env := front.st.env[item := Tagged(items[n], taint)]);
      ItemsBelow(cfg, st, item, items[..n], taint, body, low, high, x, marks);
      NothingSeen(marks);
      if front.res.Ok? {
        ItemsSound(cfg, st, item, items[..n], taint, body, low, high, x);
        MarkedFrame(x.anns, front.st, next);
        ListBelow(cfg, next, body, low, high, x, marks, |body|);
      }
      BelowBoth(marks, ItemsSights(cfg, st, item, items[..n], taint, body, low),
                if front.res.Ok? then ListSights(cfg, next, body, low, |body|) else []);
    }
  }

  // ----- whole runs -----

  // For an admitted plan that binds each name at one site: whatever a run evaluates for a
  // statement, and the program counter it does so under, lie below the label and the program
  // counter the walk derived at a site of that very statement.
  lemma RunSights(cfg: Config, stmts: seq<Stmt>, grant: Grant, nonce: Name, signals: seq<Signal>)
    requires Admissible(stmts, cfg.schemas) && BindsOnce(stmts, {})
    ensures AllBelow(Marks(cfg.schemas, map[], stmts, PUBLIC),
                     ListSights(cfg, Initial(grant, nonce, signals), stmts, PUBLIC, |stmts|))
  {
    hide BindsOnce, LabelPass, Anns, AllBelow, Marks, ListSights;
    var none: Labels := map[];
    assert none.Keys == {};
    var f, anns := LabelPass(cfg.schemas, none, stmts, PUBLIC).value, Anns(cfg.schemas, none, stmts, PUBLIC, 1);
    var marks := Marks(cfg.schemas, none, stmts, PUBLIC);
    ListBelow(cfg, Initial(grant, nonce, signals), stmts, PUBLIC, PUBLIC, Site(none, f, 1, anns), marks, |stmts|);
  }

  // A run meets one sight per executed statement, unless its last one stopped while evaluating.
  lemma {:induction false} ListSeen(cfg: Config, st: RunState, stmts: seq<Stmt>, pc: Label, total: nat)
    requires |stmts| <= total
    ensures var r := ExecList(cfg, st, stmts, pc, total);
            var seen := |ListSights(cfg, st, stmts, pc, total)|;
            && st.steps + seen <= r.st.steps <= st.steps + seen + 1
            && (r.res.Ok? ==> r.st.steps == st.steps + seen)
    decreases stmts, 0
  {
    hide ExecStmt, StmtSights;
    if stmts != [] {
      var n := |stmts| - 1;
      var front := ExecList(cfg, st, stmts[..n], pc, total);
      ListSeen(cfg, st, stmts[..n], pc, total);
      if front.res.Ok? {
        StmtSeen(cfg, front.st, stmts[n], pc, total - n);
      }
    }
  }

  lemma {:induction false} StmtSeen(cfg: Config, st: RunState, s: Stmt, pc: Label, remaining: nat)
    ensures var r := ExecStmt(cfg, st, s, pc, remaining);
            var seen := |StmtSights(cfg, st, s, pc, remaining)|;
            && st.steps + seen <= r.st.steps <= st.steps + seen + 1
            && (r.res.Ok? ==> r.st.steps == st.steps + seen)
    decreases s, 0
  {
    hide Eval, EvalArgs, EvalGuard, Emit, ExecItems, ExecList, ListSights, ItemsSights, NextNum;
    var st1 := st.(steps := st.steps + 1);
    match s {
      case Let(_, e) => EvalFrame(cfg, st1, e);
      case Effect(verb, args) =>
        ArgsFrame(cfg, st1, args, pc);
        EffectTrace(cfg, st1, verb, args, pc, remaining);
      case If(g, a, b) =>
        GuardFrame(cfg, st1, g);
        var v := EvalGuard(cfg, st1, g);
        if v.res.Ok? {
          var arm := if v.res.value.holds then a else b;
          ListSeen(cfg, v.st, arm, pc.Join(v.res.value.taint), |arm|);
        }
      case Foreach(x, list, bound, mode, body) =>
        EvalFrame(cfg, st1, list);
        var l := Eval(cfg, st1, list);
        if l.res.Ok? {
          var items, taint := l.res.value.value.Items(), l.res.value.taint;
          var admitted := Admitted(l.st, |items|, bound, mode);
          AdmittedFrame(l.st, |items|, bound, mode);
          if admitted.res.Ok? {
            var inner := admitted.st.(modes := admitted.st.modes + [mode]);
            ItemsSeen(cfg, inner, x, items[..admitted.res.value], taint, body, pc.Join(taint));
          }
        }
    }
  }

  lemma {:induction false} ItemsSeen(cfg: Config, st: RunState, x: Name, items: seq<Value>, taint: Label,
                                     body: seq<Stmt>, pc: Label)
    ensures var r := ExecItems(cfg, st, x, items, taint, body, pc);
            var seen := |ItemsSights(cfg, st, x, items, taint, body, pc)|;
            && st.steps + seen <= r.st.steps <= st.steps + seen + 1
            && (r.res.Ok? ==> r.st.steps == st.steps + seen)
    decreases body, |items| + 2
  {
    hide ExecList, ListSights;
    if items != [] {
      var n := |items| - 1;
      var front := ExecItems(cfg, st, x, items[..n], taint, body, pc);
      ItemsSeen(cfg, st, x, items[..n], taint, body, pc);
      if front.res.Ok? {
        ListSeen(cfg, front.st.(env := front.st.env[x := Tagged(items[n], taint)]), body, pc, |body|);
      }
    }
  }
}
