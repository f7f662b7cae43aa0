// The interpreter as it runs: an environment, a stack of modes, the buffer and the emission
// log, updated in place; every method is proved against the meaning of plans.

module Interpreter {
  import opened Prelude
  import opened PlanShapes
  import opened PlanIr
  import opened PlanCheck
  import Sem = PlanSemantics
  import opened PlanSemantics

  lemma OnlyUnit(r: Result<(), Outcome>)
    ensures r.Ok? ==> r == Ok(())
  {
    if r.Ok? {
      match r.value {
        case () =>
      }
    }
  }

  // Candidates in order; the first that exercises cleanly wins.
  method ExerciseFirst(cfg: Config, n: nat, grants: seq<Grant>, v: VerbId) returns (gate: Gate)
    ensures gate == Exercise(cfg, n, grants, v, 0, NoCapability)
  {
    gate := NoCapability;
    for i := 0 to |grants|
      invariant !gate.Open? && Exercise(cfg, n, grants, v, i, gate) == Exercise(cfg, n, grants, v, 0, NoCapability)
    {
      if Candidate(cfg, n, grants, i, v) {
        var cap := grants[i][v.handler];
        if cfg.clock(n) > cap.expires {
          gate := Expired;
        } else {
          if v.verb !in cap.left {
            return Open(grants);
          }
          if cap.left[v.verb] > 0 {
            return Open(grants[i := Spend(grants[i], v)]);
          }
          gate := BudgetExhausted;
        }
      }
    }
  }

  class Machine {
    const cfg: Config
    var env: Env
    var modes: seq<Mode>
    var withheld: nat
    var activeNonce: Name
    var grants: seq<Grant>
    var buffer: seq<Buffered>
    var log: seq<Emission>
    var calls: nat
    var signals: seq<Signal>
    ghost var steps: nat
    ghost var trace: Path
    ghost var notes: seq<Note>
    ghost var asked: seq<Asked>

    ghost function View(): RunState
      reads this
    {
      RunState(env, modes, withheld, activeNonce, grants, buffer, log, calls, signals, steps, trace, notes, asked)
    }

    constructor (cfg: Config, grant: Grant, nonce: Name, signals: seq<Signal>)
      ensures this.cfg == cfg
      ensures View() == RunState(map[], [], 0, nonce, [grant], [], [], 0, signals, 0, [], [], [])
    {
      this.cfg := cfg;
      this.signals := signals;
      env, modes, withheld, activeNonce := map[], [], 0, nonce;
      grants, buffer, log, calls := [grant], [], [], 0;
      steps, trace, notes, asked := 0, [], [], [];
    }

    // ----- the capability gate and the call -----

    method Invoke(v: VerbId, arg: Value) returns (r: CallResult)
      modifies this`grants, this`calls, this`asked
      ensures r == Sem.Invoke(cfg, old(View()), v, arg) && View() == InvokeState(cfg, old(View()), v)
    {
      hide Sem.Exercise;
      var n := calls;
      var gate := ExerciseFirst(cfg, n, grants, v);
      calls := calls + 1;
      asked := asked + [Asked(v, ReplyOf(gate))];
      match gate {
        case Open(left) =>
          grants := left;
          var answer := cfg.world(n, v, arg);
          match answer {
            case Returned(x) => return Got(x);
            case Broke => return CallBroke;
          }
        case Expired => return CallBroke;
        case _ => return GateRefused;
      }
    }

    // ----- expressions -----

    method Read(v: VerbId, arg: Value, taint: Label) returns (r: Result<Tagged, Outcome>)
      modifies this`grants, this`calls, this`asked
      ensures Run(View(), r) == Sem.Read(cfg, old(View()), v, arg, taint)
    {
      hide Sem.Exercise;
      var answer := Invoke(v, arg);
      match answer {
        case Got(x) => return Ok(Tagged(x, taint));
        case _ => return Err(FailStop(CallFailed(v)));
      }
    }

    method Eval(e: Expr) returns (r: Result<Tagged, Outcome>)
      modifies this`grants, this`calls, this`asked
      ensures Run(View(), r) == Sem.Eval(cfg, old(View()), e)
      decreases e, 0
    {
      hide Sem.EvalArgs, Sem.Read;
      match e {
        case Observe(verb, args) =>
          if verb !in cfg.schemas.observe {
            return Err(FailStop(NoSuchVerb(verb)));
          }
          var a := EvalArgs(args, cfg.schemas.observe[verb]);
          if a.Err? {
            return Err(a.error);
          }
          r := Read(verb, ReadArg(a.value.vals), a.value.taint);
        case Pure(func, args) =>
          var a := EvalArgs(args, PUBLIC);
          if a.Err? {
            return Err(a.error);
          }
          r := Read(COMPUTE, Object([("func", Text(func)), ("args", List(a.value.vals))]), a.value.taint);
        case Const(v) =>
          return Ok(Tagged(v, PUBLIC));
        case Var(x) =>
          if x !in env {
            return Err(FailStop(NoSuchVar(x)));
          }
          return Ok(env[x]);
        case Index(base, i) =>
          var b := Eval(base);
          if b.Err? {
            return b;
          }
          return Ok(Tagged(b.value.value.At(i), b.value.taint));
      }
    }

    method EvalArgs(args: seq<Expr>, base: Label) returns (r: Result<Args, Outcome>)
      modifies this`grants, this`calls, this`asked
      ensures Run(View(), r) == Sem.EvalArgs(cfg, old(View()), args, base)
      decreases args, 0
    {
      ghost var start := View();
      var label', vals := base, [];
      for i := 0 to |args|
        invariant unchanged(this`env, this`modes, this`withheld, this`activeNonce, this`buffer, this`log)
        invariant unchanged(this`signals, this`steps, this`trace, this`notes)
        invariant Sem.EvalArgs(cfg, start, args[..i], base) == Run(View(), Ok(Args(vals, label')))
      {
        assert args[..i + 1][..i] == args[..i];
        var v := Eval(args[i]);
        if v.Err? {
          ArgsStop(cfg, start, args, i + 1, base);
          return Err(v.error);
        }
        label', vals := label'.Join(v.value.taint), vals + [v.value.value];
      }
      assert args[..|args|] == args;
      return Ok(Args(vals, label'));
    }

    static lemma {:induction false} ArgsStop(cfg: Config, st: RunState, args: seq<Expr>, n: nat, base: Label)
      requires n <= |args| && Sem.EvalArgs(cfg, st, args[..n], base).res.Err?
      ensures Sem.EvalArgs(cfg, st, args, base) == Sem.EvalArgs(cfg, st, args[..n], base)
      decreases |args| - n
    {
      if n == |args| {
        assert args[..n] == args;
      } else {
        assert args[..n + 1][..n] == args[..n];
        ArgsStop(cfg, st, args, n + 1, base);
      }
    }

    method EvalGuard(g: Guard) returns (r: Result<Verdict, Outcome>)
      modifies this`grants, this`calls, this`asked
      ensures Run(View(), r) == Sem.EvalGuard(cfg, old(View()), g)
      decreases g, 1
    {
      hide Sem.Eval;
      match g {
        case Exists(e) =>
          var a := Eval(e);
          if a.Err? {
            return Err(a.error);
          }
          return Ok(Verdict(a.value.value.Present(), a.value.taint));
        case Matches(e, regex) =>
          var a := Eval(e);
          if a.Err? {
            return Err(a.error);
          }
          return Match(cfg, a.value, regex);
        case Cmp(lhs, op, rhs) =>
          var a := Eval(lhs);
          if a.Err? {
            return Err(a.error);
          }
          var b := Eval(rhs);
          if b.Err? {
            return Err(b.error);
          }
          return Ok(Verdict(op.Holds(CmpValues(a.value.value, b.value.value)), a.value.taint.Join(b.value.taint)));
        case And(_, _) => r := EvalPair(g);
        case Or(_, _) => r := EvalPair(g);
        case Not(h) =>
          var a := EvalGuard(h);
          if a.Err? {
            return a;
          }
          return Ok(Verdict(!a.value.holds, a.value.taint));
      }
    }

    method EvalPair(g: Guard) returns (r: Result<Verdict, Outcome>)
      requires g.And? || g.Or?
      modifies this`grants, this`calls, this`asked
      ensures Run(View(), r) == Sem.EvalGuard(cfg, old(View()), g)
      decreases g, 0
    {
      var a := EvalGuard(g.l);
      if a.Err? {
        return a;
      }
      var b := EvalGuard(g.r);
      if b.Err? {
        return b;
      }
      return Ok(Verdict(if g.And? then a.value.holds && b.value.holds else a.value.holds || b.value.holds,
                        a.value.taint.Join(b.value.taint)));
    }

    // ----- suspension and effects -----

    method ParkForResume() returns (r: Result<(), Outcome>)
      modifies this`signals, this`grants, this`activeNonce
      ensures Run(View(), r) == Park(old(View()))
    {
      if signals == [] {
        return Err(Aborted(true));
      }
      var signal := signals[0];
      signals := signals[1..];
      match signal {
        case Abort(expired) => return Err(Aborted(expired));
        case Resume(consent, partial) =>
          var minted := Mint(consent.budget.Keys, consent.budget, consent.Expires());
          if partial.Some? {
            grants := grants + [Only(minted, partial.value)];
            return Err(FailStop(MintFailed));
          }
          grants := grants + [minted];
          activeNonce := consent.nonce;
          return Ok(());
      }
    }

    method PushBuffer(v: VerbId, target: Name, arg: Value, ghost effective: Label) returns (ok: bool)
      modifies this`buffer, this`withheld, this`trace, this`notes
      ensures ok == cfg.stored(|old(buffer)|)
      ensures View() == if ok then Withheld(old(View()), v, target, arg, effective) else old(View())
    {
      var num := 1;
      for i := 0 to |buffer|
        invariant num == NextNum(buffer[..i])
      {
        assert buffer[..i + 1][..i] == buffer[..i];
        if buffer[i].num + 1 > num {
          num := buffer[i].num + 1;
        }
      }
      assert buffer[..|buffer|] == buffer;
      ok := cfg.stored(|buffer|);
      if ok {
        buffer := buffer + [Buffered(num, v, target, arg, 1)];
        withheld := withheld + 1;
        trace, notes := trace + [v], notes + [Note(effective, true)];
      }
    }

    method Emit(v: VerbId, target: Name, arg: Value, ghost effective: Label, remaining: nat)
      returns (r: Result<(), Outcome>)
      modifies this
      ensures Run(View(), r) == Sem.Emit(cfg, old(View()), v, target, arg, effective, remaining)
    {
      hide Sem.Exercise, Mint;
      ghost var start := View();
      while true
        invariant Sem.Emit(cfg, View(), v, target, arg, effective, remaining) ==
                  Sem.Emit(cfg, start, v, target, arg, effective, remaining)
        decreases |signals|
      {
        var answer := Invoke(v, arg);
        match answer {
          case Got(_) =>
            log := log + [Emission(|log| + 1, v, target, activeNonce)];
            trace, notes := trace + [v], notes + [Note(effective, false)];
            return Ok(());
          case CallBroke =>
            return Err(FailStop(CallFailed(v)));
          case GateRefused =>
            var mode := if modes == [] then Strict else modes[|modes| - 1];
            match mode {
              case Strict => return Err(FailStop(OutOfBudget(v)));
              case Truncate => return Err(Truncated(remaining));
              case Escalate =>
                var resumed := ParkForResume();
                if resumed.Err? {
                  return resumed;
                }
            }
        }
      }
    }

    method ExecEffect(v: VerbId, args: seq<Expr>, pc: Label, remaining: nat) returns (r: Result<(), Outcome>)
      modifies this
      ensures Run(View(), r) == Sem.ExecEffect(cfg, old(View()), v, args, pc, remaining)
    {
      hide Sem.EvalArgs, Sem.Emit, NextNum;
      var a := EvalArgs(args, pc);
      if a.Err? {
        return Err(a.error);
      }
      var arg := EffectArg(a.value.vals);
      var external := if v in cfg.schemas.external then cfg.schemas.external[v] else true;
      if external && a.value.taint.conf != {} {
        return Err(FailStop(SinkRefused(v)));
      }
      var target := cfg.target(v, arg);
      if cfg.withhold(v, arg) {
        var ok := PushBuffer(v, target, arg, a.value.taint);
        if !ok {
          return Err(FailStop(BufferFailed(v)));
        }
        return Ok(());
      }
      r := Emit(v, target, arg, a.value.taint, remaining);
    }

    // ----- statements -----

    method ExecStmt(s: Stmt, pc: Label, remaining: nat) returns (r: Result<(), Outcome>)
      modifies this
      ensures Run(View(), r) == Sem.ExecStmt(cfg, old(View()), s, pc, remaining)
      decreases s, 1
    {
      hide Sem.Eval, Sem.EvalGuard, Sem.ExecEffect, Sem.ExecItems, Sem.ExecBlock;
      steps := steps + 1;
      match s {
        case Let(x, e) =>
          var a := Eval(e);
          if a.Err? {
            return Err(a.error);
          }
          env := env[x := a.value];
          return Ok(());
        case Effect(v, args) =>
          r := ExecEffect(v, args, pc, remaining);
        case If(g, a, b) =>
          var v := EvalGuard(g);
          if v.Err? {
            return Err(v.error);
          }
          r := ExecStmts(if v.value.holds then a else b, pc.Join(v.value.taint));
        case Foreach(x, list, bound, mode, body) =>
          var l := Eval(list);
          if l.Err? {
            return Err(l.error);
          }
          var items := l.value.value.Items();
          var take := |items|;
          if |items| > bound {
            match mode {
              case Strict => return Err(FailStop(BoundExceeded(bound, |items|)));
              case Truncate => take := bound;
              case Escalate =>
                var resumed := ParkForResume();
                if resumed.Err? {
                  return resumed;
                }
            }
          }
          modes := modes + [mode];
          r := ExecItems(x, items[..take], l.value.taint, body, pc.Join(l.value.taint));
          modes := PopMode(modes);
      }
    }

    method ExecItems(x: Name, items: seq<Value>, taint: Label, body: seq<Stmt>, pc: Label)
      returns (r: Result<(), Outcome>)
      modifies this
      ensures Run(View(), r) == Sem.ExecItems(cfg, old(View()), x, items, taint, body, pc)
      decreases body, 2
    {
      hide Sem.ExecBlock;
      ghost var start := View();
      for i := 0 to |items|
        invariant Sem.ExecItems(cfg, start, x, items[..i], taint, body, pc) == Run(View(), Ok(()))
      {
        assert items[..i + 1][..i] == items[..i];
        env := env[x := Tagged(items[i], taint)];
        r := ExecStmts(body, pc);
        OnlyUnit(r);
        if r.Err? {
          ItemsStop(cfg, start, x, items, i + 1, taint, body, pc);
          return r;
        }
      }
      assert items[..|items|] == items;
      return Ok(());
    }

    static lemma {:induction false} ItemsStop(cfg: Config, st: RunState, x: Name, items: seq<Value>, n: nat,
                                              taint: Label, body: seq<Stmt>, pc: Label)
      requires n <= |items| && Sem.ExecItems(cfg, st, x, items[..n], taint, body, pc).res.Err?
      ensures Sem.ExecItems(cfg, st, x, items, taint, body, pc) ==
                Sem.ExecItems(cfg, st, x, items[..n], taint, body, pc)
      decreases |items| - n
    {
      hide Sem.ExecBlock;
      if n == |items| {
        assert items[..n] == items;
      } else {
        assert items[..n + 1][..n] == items[..n];
        ItemsStop(cfg, st, x, items, n + 1, taint, body, pc);
      }
    }

    method ExecStmts(stmts: seq<Stmt>, pc: Label) returns (r: Result<(), Outcome>)
      modifies this
      ensures Run(View(), r) == Sem.ExecBlock(cfg, old(View()), stmts, pc)
      decreases stmts, 1
    {
      hide Sem.ExecStmt;
      ghost var start := View();
      for i := 0 to |stmts|
        invariant Sem.ExecList(cfg, start, stmts[..i], pc, |stmts|) == Run(View(), Ok(()))
      {
        assert stmts[..i + 1][..i] == stmts[..i];
        r := ExecStmt(stmts[i], pc, |stmts| - i);
        OnlyUnit(r);
        if r.Err? {
          ListStop(cfg, start, stmts, i + 1, pc, |stmts|);
          return r;
        }
      }
      assert stmts[..|stmts|] == stmts;
      return Ok(());
    }

    static lemma {:induction false} ListStop(cfg: Config, st: RunState, stmts: seq<Stmt>, n: nat, pc: Label, total: nat)
      requires n <= |stmts| <= total && Sem.ExecList(cfg, st, stmts[..n], pc, total).res.Err?
      ensures Sem.ExecList(cfg, st, stmts, pc, total) == Sem.ExecList(cfg, st, stmts[..n], pc, total)
      decreases |stmts| - n
    {
      hide Sem.ExecStmt;
      if n == |stmts| {
        assert stmts[..n] == stmts;
      } else {
        assert stmts[..n + 1][..n] == stmts[..n];
        ListStop(cfg, st, stmts, n + 1, pc, total);
      }
    }
  }
}
