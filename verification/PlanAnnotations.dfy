// The walk's record of effects: one annotation per effect site, with its label and multiplier.

module PlanAnnotations {
  import opened Prelude
  import opened PlanShapes
  import opened PlanIr
  import opened PlanCheck

  // The effect sites of a plan that passes the label pass, in program order.
  function Anns(sch: Schemas, env: Labels, stmts: seq<Stmt>, pc: Label, mult: nat): seq<EffectAnn>
    requires LabelPass(sch, env, stmts, pc).Some?
    decreases stmts, 0
  {
    if stmts == [] then []
    else
      var n := |stmts| - 1;
      Anns(sch, env, stmts[..n], pc, mult) +
      StmtAnns(sch, LabelPass(sch, env, stmts[..n], pc).value, stmts[n], pc, mult)
  }

  function StmtAnns(sch: Schemas, env: Labels, s: Stmt, pc: Label, mult: nat): seq<EffectAnn>
    requires LabelStmt(sch, env, s, pc).Some?
    decreases s, 0
  {
    match s
    case Let(_, _) => []
    case Effect(verb, args) => [EffectAnn(verb, ArgsLabel(sch, env, args, pc).value, mult)]
    case If(g, a, b) =>
      var pc2 := pc.Join(GuardLabel(sch, env, g).value);
      Anns(sch, env, a, pc2, mult) + Anns(sch, LabelPass(sch, env, a, pc2).value, b, pc2, mult)
    case Foreach(x, list, bound, _, body) =>
      var l := ExprLabel(sch, env, list).value;
      Anns(sch, env[x := l], body, pc.Join(l), mult * bound)
  }

  // ----- the walk records exactly these -----

  lemma {:induction false} WalkRecords(sch: Schemas, w: WalkState, stmts: seq<Stmt>, pc: Label, mult: nat, depth: nat)
    requires w.steps <= S_MAX && WalkList(sch, w, stmts, pc, mult, depth).Ok?
    ensures LabelPass(sch, w.env, stmts, pc).Some?
    ensures WalkList(sch, w, stmts, pc, mult, depth).value.effects == w.effects + Anns(sch, w.env, stmts, pc, mult)
    decreases stmts, 0
  {
    hide WalkStmt, LabelStmt, StmtAnns;
    WalkIsThreePasses(sch, w, stmts, pc, mult, depth);
    if stmts != [] {
      var n := |stmts| - 1;
      var mid := WalkList(sch, w, stmts[..n], pc, mult, depth).value;
      WalkIsThreePasses(sch, w, stmts[..n], pc, mult, depth);
      WalkListCounts(sch, w, stmts[..n], pc, mult, depth);
      WalkRecords(sch, w, stmts[..n], pc, mult, depth);
      StmtRecords(sch, mid, stmts[n], pc, mult, depth);
    }
  }

  lemma {:induction false} StmtRecords(sch: Schemas, w: WalkState, s: Stmt, pc: Label, mult: nat, depth: nat)
    requires w.steps <= S_MAX && WalkStmt(sch, w, s, pc, mult, depth).Ok?
    ensures LabelStmt(sch, w.env, s, pc).Some?
    ensures WalkStmt(sch, w, s, pc, mult, depth).value.effects == w.effects + StmtAnns(sch, w.env, s, pc, mult)
    decreases s, 1
  {
    hide WalkList, WalkBlock, ExprLabel, ArgsLabel, GuardLabel, LabelPass;
    StmtIsThreePasses(sch, w, s, pc, mult, depth);
    match s {
      case Let(_, _) =>
      case Effect(_, _) =>
      case If(_, _, _) => IfRecords(sch, w, s, pc, mult, depth);
      case Foreach(_, _, _, _, _) => LoopRecords(sch, w, s, pc, mult, depth);
    }
  }

  lemma {:induction false} IfRecords(sch: Schemas, w: WalkState, s: Stmt, pc: Label, mult: nat, depth: nat)
    requires s.If? && w.steps <= S_MAX && WalkStmt(sch, w, s, pc, mult, depth).Ok?
    requires LabelStmt(sch, w.env, s, pc).Some?
    ensures WalkStmt(sch, w, s, pc, mult, depth).value.effects == w.effects + StmtAnns(sch, w.env, s, pc, mult)
    decreases s, 0
  {
    hide WalkList, GuardLabel, LabelPass, WalkStmt;
    IfUnfolds(sch, w, s, pc, mult, depth);
    var w1 := w.(nodes := w.nodes + 1, steps := w.steps + mult);
    var w2 := w1.(nodes := w1.nodes + GuardNodes(s.guard));
    var pc2 := pc.Join(GuardLabel(sch, w1.env, s.guard).value);
    var mid := WalkBlock(sch, w2, s.thenArm, pc2, mult, depth + 1).value;
    WalkIsThreePasses(sch, w2, s.thenArm, pc2, mult, depth + 1);
    WalkListCounts(sch, w2, s.thenArm, pc2, mult, depth + 1);
    WalkRecords(sch, w2, s.thenArm, pc2, mult, depth + 1);
    WalkRecords(sch, mid, s.elseArm, pc2, mult, depth + 1);
  }

  lemma {:induction false} LoopRecords(sch: Schemas, w: WalkState, s: Stmt, pc: Label, mult: nat, depth: nat)
    requires s.Foreach? && w.steps <= S_MAX && WalkStmt(sch, w, s, pc, mult, depth).Ok?
    requires LabelStmt(sch, w.env, s, pc).Some?
    ensures WalkStmt(sch, w, s, pc, mult, depth).value.effects == w.effects + StmtAnns(sch, w.env, s, pc, mult)
    decreases s, 0
  {
    hide WalkList, ExprLabel, LabelPass, WalkStmt;
    LoopUnfolds(sch, w, s, pc, mult, depth);
    var w1 := w.(nodes := w.nodes + 1, steps := w.steps + mult);
    var l := ExprLabel(sch, w1.env, s.list).value;
    var w2 := w1.(env := w1.env[s.item := l], nodes := w1.nodes + ExprNodes(s.list));
    WalkRecords(sch, w2, s.body, pc.Join(l), mult * s.bound, depth + 1);
  }

  // ----- the multipliers of a verb add up to its budget -----

  function Multipliers(anns: seq<EffectAnn>, v: VerbId): nat {
    if anns == [] then 0
    else Multipliers(anns[..|anns| - 1], v) + (if anns[|anns| - 1].verb == v then anns[|anns| - 1].multiplier else 0)
  }

  lemma {:induction false} MultipliersAdd(a: seq<EffectAnn>, b: seq<EffectAnn>, v: VerbId)
    ensures Multipliers(a + b, v) == Multipliers(a, v) + Multipliers(b, v)
    decreases |b|
  {
    if b == [] {
      assert a + b == a;
    } else {
      var n := |b| - 1;
      assert (a + b)[..|a + b| - 1] == a + b[..n];
      MultipliersAdd(a, b[..n], v);
    }
  }

  lemma {:induction false} AnnsSum(sch: Schemas, env: Labels, stmts: seq<Stmt>, pc: Label, mult: nat, v: VerbId)
    requires LabelPass(sch, env, stmts, pc).Some?
    ensures Multipliers(Anns(sch, env, stmts, pc, mult), v) == mult * Occ(stmts, v)
    decreases stmts, 0
  {
    hide LabelStmt, StmtAnns, StmtOcc;
    if stmts != [] {
      var n := |stmts| - 1;
      var mid := LabelPass(sch, env, stmts[..n], pc).value;
      AnnsSum(sch, env, stmts[..n], pc, mult, v);
      StmtAnnsSum(sch, mid, stmts[n], pc, mult, v);
      MultipliersAdd(Anns(sch, env, stmts[..n], pc, mult), StmtAnns(sch, mid, stmts[n], pc, mult), v);
      ScaleSum(mult, Occ(stmts[..n], v), StmtOcc(stmts[n], v));
    }
  }

  lemma {:induction false} StmtAnnsSum(sch: Schemas, env: Labels, s: Stmt, pc: Label, mult: nat, v: VerbId)
    requires LabelStmt(sch, env, s, pc).Some?
    ensures Multipliers(StmtAnns(sch, env, s, pc, mult), v) == mult * StmtOcc(s, v)
    decreases s, 0
  {
    hide ExprLabel, ArgsLabel, GuardLabel;
    match s {
      case Let(_, _) =>
      case Effect(verb, args) =>
        var anns := StmtAnns(sch, env, s, pc, mult);
        assert anns[..0] == [];
      case If(g, a, b) =>
        var pc2 := pc.Join(GuardLabel(sch, env, g).value);
        var mid := LabelPass(sch, env, a, pc2).value;
        AnnsSum(sch, env, a, pc2, mult, v);
        AnnsSum(sch, mid, b, pc2, mult, v);
        MultipliersAdd(Anns(sch, env, a, pc2, mult), Anns(sch, mid, b, pc2, mult), v);
        ScaleSum(mult, Occ(a, v), Occ(b, v));
      case Foreach(x, list, bound, _, body) =>
        var l := ExprLabel(sch, env, list).value;
        ScaleSum(mult, bound, 0);
        AnnsSum(sch, env[x := l], body, pc.Join(l), mult * bound, v);
        ScaleProduct(mult, bound, Occ(body, v));
    }
  }
}
