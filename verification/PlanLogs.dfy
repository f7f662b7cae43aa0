// The emission log and the buffer split the effects of a run.

module PlanLogs {
  import opened Prelude
  import opened PlanShapes
  import opened PlanIr
  import opened PlanCheck
  import opened PlanSemantics
  import opened PlanFrames

  // ----- the logs split the trace -----

  function LogVerbs(log: seq<Emission>): Path {
    if log == [] then [] else LogVerbs(log[..|log| - 1]) + [log[|log| - 1].verb]
  }

  function BufferVerbs(buffer: seq<Buffered>): Path {
    if buffer == [] then [] else BufferVerbs(buffer[..|buffer| - 1]) + [buffer[|buffer| - 1].verb]
  }

  // The effects noted as held, or those noted as not held, in program order.
  function Pick(t: Path, notes: seq<Note>, held: bool): Path
    requires |t| == |notes|
  {
    if t == [] then []
    else
      var n := |t| - 1;
      Pick(t[..n], notes[..n], held) + (if notes[n].held == held then [t[n]] else [])
  }

  // The policy decides so for some arguments of the verb.
  ghost predicate Decided(cfg: Config, v: VerbId, held: bool) {
    exists arg :: cfg.withhold(v, arg) == held
  }

  predicate NumberedLog(log: seq<Emission>) {
    forall i :: 0 <= i < |log| ==> log[i].num == i + 1
  }

  predicate NumberedBuffer(buffer: seq<Buffered>) {
    forall i :: 0 <= i < |buffer| ==> buffer[i].num == i + 1
  }

  lemma PolicyDecides(cfg: Config, v: VerbId, arg: Value)
    ensures Decided(cfg, v, cfg.withhold(v, arg))
  {
  }

  // Nothing confidential leaves through an external effect.
  predicate Clean(sch: Schemas, v: VerbId, effective: Label) {
    External(sch, v) ==> effective.conf == {}
  }

  // The emission log holds the immediate effects and the buffer the withheld ones, each in
  // program order with consecutive numbers; every withheld item costs one unit; every effect
  // followed the policy and was clean.
  ghost predicate Sorted(cfg: Config, st: RunState) {
    && |st.notes| == |st.trace|
    && (forall i :: 0 <= i < |st.trace| ==> Decided(cfg, st.trace[i], st.notes[i].held))
    && (forall i :: 0 <= i < |st.trace| ==> Clean(cfg.schemas, st.trace[i], st.notes[i].effective))
    && LogVerbs(st.log) == Pick(st.trace, st.notes, false) && NumberedLog(st.log)
    && BufferVerbs(st.buffer) == Pick(st.trace, st.notes, true) && NumberedBuffer(st.buffer)
    && |st.buffer| == st.withheld && UnitCost(st.buffer)
  }

  predicate UnitCost(buffer: seq<Buffered>) {
    forall i :: 0 <= i < |buffer| ==> buffer[i].cost == 1
  }

  lemma {:induction false} NextNumber(buffer: seq<Buffered>)
    requires NumberedBuffer(buffer)
    ensures NextNum(buffer) == |buffer| + 1
  {
    if buffer != [] {
      NextNumber(buffer[..|buffer| - 1]);
    }
  }

  lemma LogKeepsSorted(cfg: Config, st: RunState, v: VerbId, target: Name, low: Label)
    requires Sorted(cfg, st) && Decided(cfg, v, false) && Clean(cfg.schemas, v, low)
    ensures Sorted(cfg, Logged(st, v, target, low))
  {
    hide Decided, Clean;
    var t := Logged(st, v, target, low);
    assert t.trace[..|t.trace| - 1] == st.trace && t.notes[..|t.trace| - 1] == st.notes;
    assert t.log[..|t.log| - 1] == st.log;
  }

  lemma WithholdKeepsSorted(cfg: Config, st: RunState, v: VerbId, target: Name, arg: Value, low: Label)
    requires Sorted(cfg, st) && Decided(cfg, v, true) && Clean(cfg.schemas, v, low)
    ensures Sorted(cfg, Withheld(st, v, target, arg, low))
  {
    hide Decided, Clean, NextNum;
    var t := Withheld(st, v, target, arg, low);
    NextNumber(st.buffer);
    assert t.trace[..|t.trace| - 1] == st.trace && t.notes[..|t.trace| - 1] == st.notes;
    assert t.buffer[..|t.buffer| - 1] == st.buffer;
  }

  lemma {:induction false} EmitKeepsSorted(cfg: Config, st: RunState, v: VerbId, target: Name, arg: Value, low: Label,
                                           remaining: nat)
    requires Sorted(cfg, st) && Decided(cfg, v, false) && Clean(cfg.schemas, v, low)
    ensures Sorted(cfg, Emit(cfg, st, v, target, arg, low, remaining).st)
    decreases |st.signals|
  {
    hide Gated, Mint, Sorted, Decided, Clean;
    var after := InvokeState(cfg, st, v);
    SortedFrame(cfg, st, after);
    match Invoke(cfg, st, v, arg) {
      case Got(_) => LogKeepsSorted(cfg, after, v, target, low);
      case CallBroke =>
      case GateRefused =>
        if CurrentMode(st).Escalate? {
          SortedFrame(cfg, st, Park(after).st);
          if Park(after).res.Ok? {
            EmitKeepsSorted(cfg, Park(after).st, v, target, arg, low, remaining);
          }
        }
    }
  }

  lemma {:induction false} ListKeepsSorted(cfg: Config, st: RunState, stmts: seq<Stmt>, pc: Label, total: nat)
    requires |stmts| <= total && Sorted(cfg, st)
    ensures Sorted(cfg, ExecList(cfg, st, stmts, pc, total).st)
    decreases stmts, 0
  {
    hide ExecStmt, Sorted;
    if stmts != [] {
      var n := |stmts| - 1;
      var front := ExecList(cfg, st, stmts[..n], pc, total);
      ListKeepsSorted(cfg, st, stmts[..n], pc, total);
      if front.res.Ok? {
        StmtKeepsSorted(cfg, front.st, stmts[n], pc, total - n);
      }
    }
  }

  // Only the trace, the logs and the withheld count matter here.
  lemma SortedFrame(cfg: Config, a: RunState, b: RunState)
    requires Sorted(cfg, a)
    requires b.trace == a.trace && b.notes == a.notes
    requires b.log == a.log && b.buffer == a.buffer && b.withheld == a.withheld
    ensures Sorted(cfg, b)
  {
  }

  lemma {:induction false} StmtKeepsSorted(cfg: Config, st: RunState, s: Stmt, pc: Label, remaining: nat)
    requires Sorted(cfg, st)
    ensures Sorted(cfg, ExecStmt(cfg, st, s, pc, remaining).st)
    decreases s, 0
  {
    hide Eval, EvalArgs, EvalGuard, Emit, ExecItems, ExecList, Sorted, Decided;
    var st1 := st.(steps := st.steps + 1);
    match s {
      case Let(x, e) =>
        EvalFrame(cfg, st1, e);
        SortedFrame(cfg, st, ExecStmt(cfg, st, s, pc, remaining).st);
      case Effect(verb, args) =>
        ArgsFrame(cfg, st1, args, pc);
        var a := EvalArgs(cfg, st1, args, pc);
        SortedFrame(cfg, st, a.st);
        if a.res.Ok? {
          var arg, low := EffectArg(a.res.value.vals), a.res.value.taint;
          PolicyDecides(cfg, verb, arg);
          if External(cfg.schemas, verb) && low.conf != {} {
          } else if cfg.withhold(verb, arg) {
            WithholdKeepsSorted(cfg, a.st, verb, cfg.target(verb, arg), arg, low);
          } else {
            EmitKeepsSorted(cfg, a.st, verb, cfg.target(verb, arg), arg, low, remaining);
          }
        }
      case If(g, a, b) =>
        GuardFrame(cfg, st1, g);
        var v := EvalGuard(cfg, st1, g);
        SortedFrame(cfg, st, v.st);
        if v.res.Ok? {
          var arm := if v.res.value.holds then a else b;
          ListKeepsSorted(cfg, v.st, arm, pc.Join(v.res.value.taint), |arm|);
        }
      case Foreach(x, list, bound, mode, body) =>
        EvalFrame(cfg, st1, list);
        var l := Eval(cfg, st1, list);
        SortedFrame(cfg, st, l.st);
        if l.res.Ok? {
          var items := l.res.value.value.Items();
          var admitted := Admitted(l.st, |items|, bound, mode);
          SortedFrame(cfg, st, admitted.st);
          if admitted.res.Ok? {
            var inner := admitted.st.(modes := admitted.st.modes + [mode]);
            SortedFrame(cfg, st, inner);
            var taken, taint := items[..admitted.res.value], l.res.value.taint;
            ItemsKeepSorted(cfg, inner, x, taken, taint, body, pc.Join(taint));
            var r := ExecItems(cfg, inner, x, taken, taint, body, pc.Join(taint));
            SortedFrame(cfg, r.st, r.st.(modes := PopMode(r.st.modes)));
          }
        }
    }
  }

  lemma {:induction false} ItemsKeepSorted(cfg: Config, st: RunState, x: Name, items: seq<Value>, taint: Label,
                                           body: seq<Stmt>, pc: Label)
    requires Sorted(cfg, st)
    ensures Sorted(cfg, ExecItems(cfg, st, x, items, taint, body, pc).st)
    decreases body, |items| + 2
  {
    hide ExecList, Sorted;
    if items != [] {
      var n := |items| - 1;
      var front := ExecItems(cfg, st, x, items[..n], taint, body, pc);
      ItemsKeepSorted(cfg, st, x, items[..n], taint, body, pc);
      if front.res.Ok? {
        var next := front.st.(env := front.st.env[x := Tagged(items[n], taint)]);
        SortedFrame(cfg, front.st, next);
        ListKeepsSorted(cfg, next, body, pc, |body|);
      }
    }
  }
}
