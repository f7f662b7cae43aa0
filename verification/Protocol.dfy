// Verb protocols as deterministic safety automata, and the static state-set analysis.

module Protocol {
  import opened Prelude
  import opened PlanShapes

  datatype Draft = Draft(initial: Name, transitions: seq<(Name, Name, Name)>)

  datatype Automaton = Automaton(initial: Name, transitions: map<(Name, Name), Name>, scoped: set<Name>)

  datatype ProtocolError = EmptyName | DuplicateTransition

  datatype Violation = Violation(verb: Name, state: Name, at: Option<nat>)

  // ----- checking a draft -----

  predicate Named(tr: (Name, Name, Name)) {
    tr.0 != "" && tr.1 != "" && tr.2 != ""
  }

  predicate SamePair(d: Draft, i: nat, j: nat) {
    i < j < |d.transitions| && d.transitions[i].0 == d.transitions[j].0 && d.transitions[i].1 == d.transitions[j].1
  }

  ghost predicate Acceptable(d: Draft) {
    && d.initial != ""
    && (forall i {:trigger d.transitions[i]} :: 0 <= i < |d.transitions| ==> Named(d.transitions[i]))
    && (forall i: nat, j: nat :: !SamePair(d, i, j))
  }

  // The automaton holds exactly the listed transitions, and scopes exactly their verbs.
  ghost predicate Describes(d: Draft, n: nat, transitions: map<(Name, Name), Name>, scoped: set<Name>)
    requires n <= |d.transitions|
  {
    && (forall i {:trigger d.transitions[i]} :: 0 <= i < n ==>
          var tr := d.transitions[i];
            (tr.0, tr.1) in transitions && transitions[(tr.0, tr.1)] == tr.2 && tr.1 in scoped)
    && (forall k {:trigger k in transitions} :: k in transitions ==>
          exists i :: 0 <= i < n && (d.transitions[i].0, d.transitions[i].1) == k)
    && (forall v {:trigger v in scoped} :: v in scoped ==> exists i :: 0 <= i < n && d.transitions[i].1 == v)
  }

  lemma DescribesNothing(d: Draft)
    ensures Describes(d, 0, map[], {})
  {
  }

  lemma DescribesGrow(d: Draft, n: nat, transitions: map<(Name, Name), Name>, scoped: set<Name>)
    requires n < |d.transitions| && Describes(d, n, transitions, scoped)
    ensures var tr := d.transitions[n];
            && ((tr.0, tr.1) in transitions <==> exists i: nat :: SamePair(d, i, n))
            && ((tr.0, tr.1) !in transitions ==>
                  Describes(d, n + 1, transitions[(tr.0, tr.1) := tr.2], scoped + {tr.1}))
  {
    var tr := d.transitions[n];
    if (tr.0, tr.1) in transitions {
      var i :| 0 <= i < n && (d.transitions[i].0, d.transitions[i].1) == (tr.0, tr.1);
      assert SamePair(d, i, n);
    } else {
      forall i: nat
        ensures !SamePair(d, i, n)
      {
        if i < n {
          assert (d.transitions[i].0, d.transitions[i].1) in transitions;
        }
      }
    }
  }

  method Check(d: Draft) returns (r: Result<Automaton, ProtocolError>)
    ensures r.Ok? <==> Acceptable(d)
    ensures r.Ok? ==> r.value.initial == d.initial && Describes(d, |d.transitions|, r.value.transitions, r.value.scoped)
    ensures r == Err(DuplicateTransition) ==> exists i: nat, j: nat :: SamePair(d, i, j)
    ensures r == Err(EmptyName) ==> d.initial == "" || exists i :: 0 <= i < |d.transitions| && !Named(d.transitions[i])
  {
    hide Describes, SamePair, Named;
    if d.initial == "" {
      return Err(EmptyName);
    }
    var transitions: map<(Name, Name), Name> := map[];
    var scoped := {};
    DescribesNothing(d);
    for k := 0 to |d.transitions|
      invariant Describes(d, k, transitions, scoped)
      invariant forall i {:trigger d.transitions[i]} :: 0 <= i < k ==> Named(d.transitions[i])
      invariant forall i: nat, j: nat :: j < k ==> !SamePair(d, i, j)
    {
      var tr := d.transitions[k];
      if !Named(tr) {
        return Err(EmptyName);
      }
      DescribesGrow(d, k, transitions, scoped);
      scoped := scoped + {tr.1};
      if (tr.0, tr.1) in transitions {
        return Err(DuplicateTransition);
      }
      transitions := transitions[(tr.0, tr.1) := tr.2];
    }
    PairsInRange(d);
    return Ok(Automaton(d.initial, transitions, scoped));
  }

  lemma PairsInRange(d: Draft)
    ensures forall i: nat, j: nat :: SamePair(d, i, j) ==> j < |d.transitions|
  {
  }

  // ----- steps and runs -----

  // A verb outside the scope leaves the state alone; inside it, no transition is a violation.
  function Step(p: Automaton, state: Name, verb: Name): Result<Name, Violation> {
    if verb !in p.scoped then Ok(state)
    else if (state, verb) in p.transitions then Ok(p.transitions[(state, verb)])
    else Err(Violation(verb, state, None))
  }

  // The state after a path; None once a step is illegal.
  function Run(p: Automaton, state: Name, t: Path): Option<Name> {
    if t == [] then Some(state)
    else
      match Run(p, state, t[..|t| - 1])
      case None => None
      case Some(mid) => match Step(p, mid, t[|t| - 1].verb) case Ok(next) => Some(next) case Err(_) => None
  }

  lemma {:induction false} RunConcat(p: Automaton, state: Name, t: Path, u: Path)
    ensures Run(p, state, t + u) == match Run(p, state, t) case None => None case Some(mid) => Run(p, mid, u)
    decreases |u|
  {
    if u == [] {
      assert t + u == t;
    } else {
      var n := |u| - 1;
      assert (t + u)[..|t + u| - 1] == t + u[..n];
      RunConcat(p, state, t, u[..n]);
    }
  }

  // Safety: an illegal prefix is never made good.
  lemma PrefixClosed(p: Automaton, state: Name, t: Path, k: nat)
    requires k <= |t| && Run(p, state, t).Some?
    ensures Run(p, state, t[..k]).Some?
  {
    assert t == t[..k] + t[k..];
    RunConcat(p, state, t[..k], t[k..]);
  }

  // The first violation: everything before it is legal, nothing that includes it is.
  ghost predicate FirstViolation(p: Automaton, state: Name, t: Path, v: Violation) {
    && v.at.Some? && v.at.value < |t|
    && Run(p, state, t[..v.at.value]) == Some(v.state)
    && v.verb == t[v.at.value].verb
    && Step(p, v.state, v.verb).Err?
  }

  method CheckSequence(p: Automaton, t: Path) returns (r: Result<Name, Violation>)
    ensures r.Ok? <==> Run(p, p.initial, t).Some?
    ensures r.Ok? ==> Run(p, p.initial, t) == Some(r.value)
    ensures r.Err? ==> FirstViolation(p, p.initial, t, r.error)
  {
    var state := p.initial;
    for i := 0 to |t|
      invariant Run(p, p.initial, t[..i]) == Some(state)
    {
      assert t[..i + 1][..i] == t[..i];
      match Step(p, state, t[i].verb) {
        case Ok(next) => state := next;
        case Err(e) =>
          if Run(p, p.initial, t).Some? {
            PrefixClosed(p, p.initial, t, i + 1);
          }
          return Err(e.(at := Some(i)));
      }
    }
    assert t[..|t|] == t;
    return Ok(state);
  }

  // ----- what a state set may do -----

  ghost predicate Reaches(p: Automaton, plan: Plan, states: set<Name>, end: Name) {
    exists s, t :: s in states && IsPath(plan, t) && Run(p, s, t) == Some(end)
  }

  // Some path is illegal from some state, exactly at the reported verb and state.
  ghost predicate Breaks(p: Automaton, plan: Plan, states: set<Name>, v: Violation) {
    && Step(p, v.state, v.verb).Err?
    && exists s, t: Path, k :: s in states && IsPath(plan, t) && 0 <= k < |t| && t[k].verb == v.verb
                         && Run(p, s, t[..k]) == Some(v.state)
  }

  ghost predicate Legal(p: Automaton, plan: Plan, states: set<Name>) {
    forall s, t :: s in states && IsPath(plan, t) ==> Run(p, s, t).Some?
  }

  lemma BreaksIllegal(p: Automaton, plan: Plan, states: set<Name>, v: Violation)
    requires Breaks(p, plan, states, v)
    ensures !Legal(p, plan, states)
  {
    var s, t: Path, k :| s in states && IsPath(plan, t) && 0 <= k < |t| && t[k].verb == v.verb &&
      Run(p, s, t[..k]) == Some(v.state);
    assert t[..k + 1][..k] == t[..k];
    if Run(p, s, t).Some? {
      PrefixClosed(p, s, t, k + 1);
    }
  }

  // The analysis of one plan: exact on success, a genuine witness on refusal.
  ghost predicate Analysed(p: Automaton, plan: Plan, states: set<Name>, r: Result<set<Name>, Violation>) {
    match r
    case Ok(ends) => Legal(p, plan, states) && forall e {:trigger e in ends} :: e in ends <==>
      Reaches(p, plan, states, e)
    case Err(v) => Breaks(p, plan, states, v)
  }

  // The same for a list run in order, for exactly `n` rounds and for at most `n` rounds.
  ghost predicate ReachesSeq(p: Automaton, items: seq<Plan>, states: set<Name>, end: Name) {
    exists s, t :: s in states && IsSeqPath(items, t) && Run(p, s, t) == Some(end)
  }

  ghost predicate ReachesRounds(p: Automaton, body: Plan, n: nat, states: set<Name>, end: Name) {
    exists s, t :: s in states && IsRounds(body, n, t) && Run(p, s, t) == Some(end)
  }

  ghost predicate ReachesLoop(p: Automaton, body: Plan, n: nat, states: set<Name>, end: Name) {
    exists s, t :: s in states && IsLoopPath(body, n, t) && Run(p, s, t) == Some(end)
  }

  ghost predicate AnalysedSeq(p: Automaton, items: seq<Plan>, states: set<Name>, ends: set<Name>) {
    && (forall s, t :: s in states && IsSeqPath(items, t) ==> Run(p, s, t).Some?)
    && forall e {:trigger e in ends} :: e in ends <==> ReachesSeq(p, items, states, e)
  }

  ghost predicate AnalysedRounds(p: Automaton, body: Plan, n: nat, states: set<Name>, ends: set<Name>) {
    && (forall s, t :: s in states && IsRounds(body, n, t) ==> Run(p, s, t).Some?)
    && forall e {:trigger e in ends} :: e in ends <==> ReachesRounds(p, body, n, states, e)
  }

  ghost predicate AnalysedLoop(p: Automaton, body: Plan, n: nat, states: set<Name>, acc: set<Name>) {
    && (forall s, t :: s in states && IsLoopPath(body, n, t) ==> Run(p, s, t).Some?)
    && forall e {:trigger e in acc} :: e in acc <==> ReachesLoop(p, body, n, states, e)
  }

  lemma SeqExtends(p: Automaton, items: seq<Plan>, plan: Plan, states: set<Name>, mid: set<Name>, ends: set<Name>)
    requires AnalysedSeq(p, items, states, mid) && Analysed(p, plan, mid, Ok(ends))
    ensures AnalysedSeq(p, items + [plan], states, ends)
  {
    hide IsSeqPath, IsPath, Run;
    var all := items + [plan];
    assert all[..|all| - 1] == items && all[|all| - 1] == plan;
    forall s, t | s in states && IsSeqPath(all, t)
      ensures Run(p, s, t).Some? && Run(p, s, t).value in ends
    {
      var k := SeqPathSplits(all, t);
      RunConcat(p, s, t[..k], t[k..]);
      var m := Run(p, s, t[..k]).value;
      assert ReachesSeq(p, items, states, m);
      assert Reaches(p, plan, mid, Run(p, m, t[k..]).value);
    }
    forall e | e in ends
      ensures ReachesSeq(p, all, states, e)
    {
      assert Reaches(p, plan, mid, e);
      var m, u :| m in mid && IsPath(plan, u) && Run(p, m, u) == Some(e);
      assert ReachesSeq(p, items, states, m);
      var s, t :| s in states && IsSeqPath(items, t) && Run(p, s, t) == Some(m);
      SeqPathGrows(items, plan, t, u);
      RunConcat(p, s, t, u);
      assert IsSeqPath(all, t + u) && Run(p, s, t + u) == Some(e);
    }
  }

  lemma RoundsExtend(p: Automaton, body: Plan, n: nat, states: set<Name>, mid: set<Name>, ends: set<Name>)
    requires AnalysedRounds(p, body, n, states, mid) && Analysed(p, body, mid, Ok(ends))
    ensures AnalysedRounds(p, body, n + 1, states, ends)
  {
    hide IsRounds, IsPath, Run;
    forall s, t | s in states && IsRounds(body, n + 1, t)
      ensures Run(p, s, t).Some? && Run(p, s, t).value in ends
    {
      var k := RoundsSplit(body, n + 1, t);
      RunConcat(p, s, t[..k], t[k..]);
      var m := Run(p, s, t[..k]).value;
      assert ReachesRounds(p, body, n, states, m);
      assert Reaches(p, body, mid, Run(p, m, t[k..]).value);
    }
    forall e | e in ends
      ensures ReachesRounds(p, body, n + 1, states, e)
    {
      assert Reaches(p, body, mid, e);
      var m, u :| m in mid && IsPath(body, u) && Run(p, m, u) == Some(e);
      assert ReachesRounds(p, body, n, states, m);
      var s, t :| s in states && IsRounds(body, n, t) && Run(p, s, t) == Some(m);
      RoundsGrow(body, n, t, u);
      RunConcat(p, s, t, u);
      assert IsRounds(body, n + 1, t + u) && Run(p, s, t + u) == Some(e);
    }
  }

  // A violation after a legal prefix is a violation of the whole.
  lemma BreaksAfter(p: Automaton, s: Name, t: Path, m: Name, u: Path, k: nat, v: Violation)
    requires Run(p, s, t) == Some(m) && k < |u| && u[k].verb == v.verb && Run(p, m, u[..k]) == Some(v.state)
    ensures (t + u)[|t| + k].verb == v.verb && Run(p, s, (t + u)[..|t| + k]) == Some(v.state)
  {
    assert (t + u)[..|t| + k] == t + u[..k];
    RunConcat(p, s, t, u[..k]);
  }

  lemma SeqBreaks(p: Automaton, items: seq<Plan>, i: nat, states: set<Name>, mid: set<Name>, v: Violation)
    requires i < |items| && AnalysedSeq(p, items[..i], states, mid) && Breaks(p, items[i], mid, v)
    ensures Breaks(p, Seq(items), states, v)
  {
    hide IsSeqPath, Run, Step;
    var m, u: Path, k :| m in mid && IsPath(items[i], u) && 0 <= k < |u| && u[k].verb == v.verb &&
      Run(p, m, u[..k]) == Some(v.state);
    assert ReachesSeq(p, items[..i], states, m);
    var s, t :| s in states && IsSeqPath(items[..i], t) && Run(p, s, t) == Some(m);
    BreaksAfter(p, s, t, m, u, k, v);
    SeqPathGrows(items[..i], items[i], t, u);
    assert items[..i + 1] == items[..i] + [items[i]];
    var w := FinishSeq(items, i + 1, t + u);
    assert w[..|t| + k] == (t + u)[..|t| + k];
    assert IsPath(Seq(items), w);
    assert w[|t| + k].verb == v.verb && Run(p, s, w[..|t| + k]) == Some(v.state);
  }

  lemma {:induction false} FinishSeq(items: seq<Plan>, n: nat, t: Path) returns (w: Path)
    requires n <= |items| && IsSeqPath(items[..n], t)
    ensures IsSeqPath(items, w) && t <= w
    decreases |items| - n
  {
    hide IsSeqPath;
    if n == |items| {
      assert items[..n] == items;
      w := t;
    } else {
      var u := SomePath(items[n]);
      SeqPathGrows(items[..n], items[n], t, u);
      assert items[..n + 1] == items[..n] + [items[n]];
      w := FinishSeq(items, n + 1, t + u);
    }
  }

  lemma RoundsBreak(p: Automaton, bound: U64, body: Plan, n: nat, states: set<Name>, mid: set<Name>, v: Violation)
    requires n < bound && AnalysedRounds(p, body, n, states, mid) && Breaks(p, body, mid, v)
    ensures Breaks(p, Loop(bound, body), states, v)
  {
    hide IsRounds, Run, Step;
    var m, u: Path, k :| m in mid && IsPath(body, u) && 0 <= k < |u| && u[k].verb == v.verb &&
      Run(p, m, u[..k]) == Some(v.state);
    assert ReachesRounds(p, body, n, states, m);
    var s, t :| s in states && IsRounds(body, n, t) && Run(p, s, t) == Some(m);
    BreaksAfter(p, s, t, m, u, k, v);
    RoundsGrow(body, n, t, u);
    assert IsLoopPath(body, bound, t + u);
    assert IsPath(Loop(bound, body), t + u);
  }

  // ----- the analysis -----

  method StepAll(p: Automaton, states: set<Name>, leaf: Leaf) returns (r: Result<set<Name>, Violation>)
    ensures Analysed(p, Verb(leaf), states, r)
  {
    var out: set<Name> := {};
    var todo := states;
    OneStep(p, leaf);
    while todo != {}
      invariant todo <= states
      invariant forall s {:trigger s in states} :: s in states && s !in todo ==>
                  Step(p, s, leaf.verb).Ok? && Step(p, s, leaf.verb).value in out
      invariant forall e {:trigger e in out} :: e in out ==> exists s :: s in states && Step(p, s, leaf.verb) == Ok(e)
      decreases |todo|
    {
      var s :| s in todo;
      todo := todo - {s};
      var next := Step(p, s, leaf.verb);
      if next.Err? {
        assert IsPath(Verb(leaf), [leaf]) && [leaf][0].verb == leaf.verb && [leaf][..0] == [];
        assert Run(p, s, [leaf][..0]) == Some(s);
        return Err(next.error);
      }
      out := out + {next.value};
    }
    SteppedAll(p, states, leaf, out);
    return Ok(out);
  }

  lemma SteppedAll(p: Automaton, states: set<Name>, leaf: Leaf, out: set<Name>)
    requires forall s :: s in states ==> Step(p, s, leaf.verb).Ok? && Step(p, s, leaf.verb).value in out
    requires forall e {:trigger e in out} :: e in out ==> exists s :: s in states && Step(p, s, leaf.verb) == Ok(e)
    ensures Analysed(p, Verb(leaf), states, Ok(out))
  {
    hide Step, Run;
    OneStep(p, leaf);
    forall s, t | s in states && IsPath(Verb(leaf), t)
      ensures Run(p, s, t).Some? && Run(p, s, t).value in out
    {
      assert t == [leaf] && Run(p, s, [leaf]).Some?;
    }
    forall e | e in out
      ensures Reaches(p, Verb(leaf), states, e)
    {
      var s :| s in states && Step(p, s, leaf.verb) == Ok(e);
      assert IsPath(Verb(leaf), [leaf]) && Run(p, s, [leaf]) == Some(e);
    }
  }

  lemma OneStep(p: Automaton, leaf: Leaf)
    ensures forall s {:trigger Run(p, s, [leaf])} ::
              Run(p, s, [leaf]) == match Step(p, s, leaf.verb) case Ok(e) => Some(e) case Err(_) => None
    ensures forall t {:trigger IsPath(Verb(leaf), t)} :: IsPath(Verb(leaf), t) ==> t == [leaf]
  {
    assert [leaf][..0] == [];
  }

  lemma SeqBegins(p: Automaton, states: set<Name>)
    ensures AnalysedSeq(p, [], states, states)
  {
    forall e | e in states
      ensures ReachesSeq(p, [], states, e)
    {
      assert IsSeqPath([], []) && Run(p, e, []) == Some(e);
    }
  }

  lemma SeqDone(p: Automaton, items: seq<Plan>, states: set<Name>, ends: set<Name>)
    requires AnalysedSeq(p, items, states, ends)
    ensures Analysed(p, Seq(items), states, Ok(ends))
  {
    hide IsSeqPath, Run;
    forall t
      ensures IsPath(Seq(items), t) <==> IsSeqPath(items, t)
    {
    }
    forall e
      ensures Reaches(p, Seq(items), states, e) <==> ReachesSeq(p, items, states, e)
    {
    }
  }

  lemma LoopBegins(p: Automaton, body: Plan, states: set<Name>)
    ensures AnalysedRounds(p, body, 0, states, states) && AnalysedLoop(p, body, 0, states, states)
  {
    hide IsRounds, IsLoopPath;
    forall t
      ensures IsRounds(body, 0, t) <==> t == []
      ensures IsLoopPath(body, 0, t) <==> t == []
    {
      NoRounds(body, t);
    }
    forall e | e in states
      ensures ReachesRounds(p, body, 0, states, e) && ReachesLoop(p, body, 0, states, e)
    {
      assert IsRounds(body, 0, []) && IsLoopPath(body, 0, []) && Run(p, e, []) == Some(e);
    }
  }

  lemma LoopGrows(p: Automaton, body: Plan, n: nat, states: set<Name>, acc: set<Name>, cur: set<Name>)
    requires AnalysedLoop(p, body, n, states, acc) && AnalysedRounds(p, body, n + 1, states, cur)
    ensures AnalysedLoop(p, body, n + 1, states, acc + cur)
  {
    hide IsRounds, IsLoopPath, Run;
    forall t
      ensures IsLoopPath(body, n + 1, t) <==> IsLoopPath(body, n, t) || IsRounds(body, n + 1, t)
    {
      LoopPathGrows(body, n, t);
    }
    forall e
      ensures ReachesLoop(p, body, n + 1, states, e) <==> e in acc + cur
    {
      assert e in acc <==> ReachesLoop(p, body, n, states, e);
      assert e in cur <==> ReachesRounds(p, body, n + 1, states, e);
    }
  }

  lemma LoopDone(p: Automaton, bound: U64, body: Plan, states: set<Name>, acc: set<Name>)
    requires AnalysedLoop(p, body, bound, states, acc)
    ensures Analysed(p, Loop(bound, body), states, Ok(acc))
  {
    hide IsLoopPath, Run;
    forall t
      ensures IsPath(Loop(bound, body), t) <==> IsLoopPath(body, bound, t)
    {
    }
    forall e
      ensures Reaches(p, Loop(bound, body), states, e) <==> ReachesLoop(p, body, bound, states, e)
    {
    }
  }

  lemma BranchDone(p: Automaton, a: Plan, b: Plan, states: set<Name>, x: set<Name>, y: set<Name>)
    requires Analysed(p, a, states, Ok(x)) && Analysed(p, b, states, Ok(y))
    ensures Analysed(p, Branch(a, b), states, Ok(x + y))
  {
    hide Run;
    forall t
      ensures IsPath(Branch(a, b), t) <==> IsPath(a, t) || IsPath(b, t)
    {
    }
    forall e
      ensures Reaches(p, Branch(a, b), states, e) <==> Reaches(p, a, states, e) || Reaches(p, b, states, e)
    {
    }
  }

  lemma BranchBreaks(p: Automaton, a: Plan, b: Plan, states: set<Name>, v: Violation)
    requires Breaks(p, a, states, v) || Breaks(p, b, states, v)
    ensures Breaks(p, Branch(a, b), states, v)
  {
    hide Run, Step;
    var arm := if Breaks(p, a, states, v) then a else b;
    var s, t: Path, k :| s in states && IsPath(arm, t) && 0 <= k < |t| && t[k].verb == v.verb &&
      Run(p, s, t[..k]) == Some(v.state);
    assert IsPath(Branch(a, b), t);
  }

  // Succeeds exactly when every path is legal from every state, with exactly the end
  // states; refuses with a verb and state some path really reaches.
  method Reach(p: Automaton, plan: Plan, states: set<Name>) returns (r: Result<set<Name>, Violation>)
    ensures Analysed(p, plan, states, r)
    decreases plan
  {
    hide Analysed, AnalysedSeq, AnalysedRounds, AnalysedLoop, Breaks, IsPath, IsSeqPath, IsRounds, Run;
    match plan {
      case Verb(leaf) =>
        r := StepAll(p, states, leaf);
      case Seq(items) =>
        var cur := states;
        SeqBegins(p, states);
        assert items[..0] == [];
        for i := 0 to |items|
          invariant AnalysedSeq(p, items[..i], states, cur)
        {
          var next := Reach(p, items[i], cur);
          AnalysedCases(p, items[i], cur, next);
          if next.Err? {
            SeqBreaks(p, items, i, states, cur, next.error);
            BreaksAnalysed(p, plan, states, next.error);
            return next;
          }
          SeqExtends(p, items[..i], items[i], states, cur, next.value);
          assert items[..i + 1] == items[..i] + [items[i]];
          cur := next.value;
        }
        assert items[..|items|] == items;
        SeqDone(p, items, states, cur);
        r := Ok(cur);
      case Loop(bound, body) =>
        var acc, cur := states, states;
        LoopBegins(p, body, states);
        for n := 0 to bound
          invariant AnalysedRounds(p, body, n, states, cur) && AnalysedLoop(p, body, n, states, acc)
        {
          var next := Reach(p, body, cur);
          AnalysedCases(p, body, cur, next);
          if next.Err? {
            RoundsBreak(p, bound, body, n, states, cur, next.error);
            BreaksAnalysed(p, plan, states, next.error);
            return next;
          }
          RoundsExtend(p, body, n, states, cur, next.value);
          cur := next.value;
          LoopGrows(p, body, n, states, acc, cur);
          acc := acc + cur;
        }
        LoopDone(p, bound, body, states, acc);
        r := Ok(acc);
      case Branch(a, b) =>
        var left := Reach(p, a, states);
        AnalysedCases(p, a, states, left);
        if left.Err? {
          BranchBreaks(p, a, b, states, left.error);
          BreaksAnalysed(p, plan, states, left.error);
          return left;
        }
        var right := Reach(p, b, states);
        AnalysedCases(p, b, states, right);
        if right.Err? {
          BranchBreaks(p, a, b, states, right.error);
          BreaksAnalysed(p, plan, states, right.error);
          return right;
        }
        BranchDone(p, a, b, states, left.value, right.value);
        r := Ok(left.value + right.value);
    }
  }

  lemma AnalysedCases(p: Automaton, plan: Plan, states: set<Name>, r: Result<set<Name>, Violation>)
    requires Analysed(p, plan, states, r)
    ensures r.Err? ==> Breaks(p, plan, states, r.error)
    ensures r.Ok? ==> Analysed(p, plan, states, Ok(r.value))
  {
  }

  lemma BreaksAnalysed(p: Automaton, plan: Plan, states: set<Name>, v: Violation)
    requires Breaks(p, plan, states, v)
    ensures Analysed(p, plan, states, Err(v))
  {
  }

  // The verdict itself, both ways.
  lemma VerdictExact(p: Automaton, plan: Plan, states: set<Name>, r: Result<set<Name>, Violation>)
    requires Analysed(p, plan, states, r)
    ensures r.Ok? <==> Legal(p, plan, states)
  {
    hide Legal, Breaks;
    if r.Err? {
      BreaksIllegal(p, plan, states, r.error);
    }
  }

  ghost predicate AllLegal(p: Automaton, plan: Plan) {
    forall t :: IsPath(plan, t) ==> Run(p, p.initial, t).Some?
  }

  method CheckPlan(p: Automaton, plan: Plan) returns (r: Result<set<Name>, Violation>)
    ensures Analysed(p, plan, {p.initial}, r)
    ensures r.Ok? <==> AllLegal(p, plan)
  {
    hide Analysed, IsPath, Run;
    r := Reach(p, plan, {p.initial});
    VerdictExact(p, plan, {p.initial}, r);
    LegalFromOne(p, plan);
  }

  lemma LegalFromOne(p: Automaton, plan: Plan)
    ensures Legal(p, plan, {p.initial}) <==> AllLegal(p, plan)
  {
    if Legal(p, plan, {p.initial}) {
      assert p.initial in {p.initial};
    }
  }

  // ----- world order -----

  // Withheld effects leave after all the others, each group in program order.
  function Now(withhold: set<Name>): Name -> bool {
    v => v !in withhold
  }

  function Later(withhold: set<Name>): Name -> bool {
    v => v in withhold
  }

  function WorldOrder(t: Path, withhold: set<Name>): Path {
    Kept(t, Now(withhold)) + Kept(t, Later(withhold))
  }

  lemma SplitPath(a: Plan, b: Plan, t: Path)
    ensures IsPath(Seq([a, b]), t) <==> exists k :: 0 <= k <= |t| && IsPath(a, t[..k]) && IsPath(b, t[k..])
  {
    var items := [a, b];
    assert items[..1] == [a] && [a][..0] == [];
    forall k | 0 <= k <= |t|
      ensures IsSeqPath([a], t[..k]) <==> IsPath(a, t[..k])
    {
      assert t[..k][0..] == t[..k];
    }
    assert IsPath(Seq(items), t) <==> IsSeqPath(items, t);
  }

  // Immediate effects of one path before withheld effects of another.
  ghost predicate AllSplitsLegal(p: Automaton, plan: Plan, now: Name -> bool, later: Name -> bool) {
    forall t, u :: IsPath(plan, t) && IsPath(plan, u) ==> Run(p, p.initial, Kept(t, now) + Kept(u, later)).Some?
  }

  ghost predicate WorldOrdersLegal(p: Automaton, plan: Plan, withhold: set<Name>) {
    forall t :: IsPath(plan, t) ==> Run(p, p.initial, WorldOrder(t, withhold)).Some?
  }

  // The check decides exactly this: every immediate projection followed by every withheld
  // projection, of possibly different paths, is legal.
  method CheckPlanWorldOrder(p: Automaton, plan: Plan, withhold: set<Name>) returns (r: Result<set<Name>, Violation>)
    ensures r.Ok? <==> AllSplitsLegal(p, plan, Now(withhold), Later(withhold))
    ensures r.Ok? ==> WorldOrdersLegal(p, plan, withhold)
  {
    var immediate := Project(plan, Now(withhold));
    var deferred := Project(plan, Later(withhold));
    r := CheckPlan(p, Seq([immediate, deferred]));
    Decouples(p, plan, Now(withhold), Later(withhold));
    SplitsCover(p, plan, withhold);
  }

  lemma SplitsCover(p: Automaton, plan: Plan, withhold: set<Name>)
    ensures AllSplitsLegal(p, plan, Now(withhold), Later(withhold)) ==> WorldOrdersLegal(p, plan, withhold)
  {
    hide Kept;
  }

  lemma Decouples(p: Automaton, plan: Plan, now: Name -> bool, later: Name -> bool)
    ensures AllLegal(p, Seq([Project(plan, now), Project(plan, later)])) <==> AllSplitsLegal(p, plan, now, later)
  {
    hide Project, Kept;
    var both := Seq([Project(plan, now), Project(plan, later)]);
    if AllLegal(p, both) {
      forall t, u | IsPath(plan, t) && IsPath(plan, u)
        ensures Run(p, p.initial, Kept(t, now) + Kept(u, later)).Some?
      {
        JoinPaths(plan, now, later, t, u);
      }
    }
    if AllSplitsLegal(p, plan, now, later) {
      forall w | IsPath(both, w)
        ensures Run(p, p.initial, w).Some?
      {
        var t, u := PartPaths(plan, now, later, w);
        assert Run(p, p.initial, Kept(t, now) + Kept(u, later)).Some?;
      }
    }
  }

  lemma JoinPaths(plan: Plan, now: Name -> bool, later: Name -> bool, t: Path, u: Path)
    requires IsPath(plan, t) && IsPath(plan, u)
    ensures IsPath(Seq([Project(plan, now), Project(plan, later)]), Kept(t, now) + Kept(u, later))
  {
    hide IsPath, Project, Kept;
    var w, k := Kept(t, now) + Kept(u, later), |Kept(t, now)|;
    ProjectForward(plan, now, t);
    ProjectForward(plan, later, u);
    SplitPath(Project(plan, now), Project(plan, later), w);
    assert w[..k] == Kept(t, now) && w[k..] == Kept(u, later);
  }

  lemma PartPaths(plan: Plan, now: Name -> bool, later: Name -> bool, w: Path) returns (t: Path, u: Path)
    requires IsPath(Seq([Project(plan, now), Project(plan, later)]), w)
    ensures IsPath(plan, t) && IsPath(plan, u) && w == Kept(t, now) + Kept(u, later)
  {
    hide IsPath, Project, Kept;
    SplitPath(Project(plan, now), Project(plan, later), w);
    var k :| 0 <= k <= |w| && IsPath(Project(plan, now), w[..k]) && IsPath(Project(plan, later), w[k..]);
    t := ProjectBack(plan, now, w[..k]);
    u := ProjectBack(plan, later, w[k..]);
  }

  // With a loop it is not: `b` is withheld and legal only after `a`, and the two projections
  // choose their round counts independently.
  const OPEN_THEN_SEND: Automaton := Automaton("new", map[("new", "a") := "open", ("open", "b") := "open"], {"a", "b"})
  const ONE_ROUND: Plan := Loop(1, Seq([Verb(Leaf("h", "a")), Verb(Leaf("h", "b"))]))

  lemma LoopNotExact()
    ensures WorldOrdersLegal(OPEN_THEN_SEND, ONE_ROUND, {"b"})
    ensures !AllSplitsLegal(OPEN_THEN_SEND, ONE_ROUND, Now({"b"}), Later({"b"}))
  {
    var a, b := Leaf("h", "a"), Leaf("h", "b");
    var body := ONE_ROUND.body;
    BodyPath(a, b);
    forall t | IsPath(ONE_ROUND, t)
      ensures t == [] || t == [a, b]
    {
      var n := RoundsOf(body, 1, t);
      if n == 0 {
        NoRounds(body, t);
      } else {
        var k := RoundsSplit(body, 1, t);
        NoRounds(body, t[..k]);
      }
    }
    KeptTwo(a, b);
    RunTwo(a, b);
    NoRounds(body, []);
    RoundsGrow(body, 0, [], [a, b]);
    assert [] + [a, b] == [a, b];
    assert IsLoopPath(body, 1, []) && IsLoopPath(body, 1, [a, b]);
    assert IsPath(ONE_ROUND, []) && IsPath(ONE_ROUND, [a, b]);
    assert Kept([], Now({"b"})) + Kept([a, b], Later({"b"})) == [b];
  }

  lemma BodyPath(a: Leaf, b: Leaf)
    ensures forall t :: IsPath(Seq([Verb(a), Verb(b)]), t) <==> t == [a, b]
  {
    forall t
      ensures IsPath(Seq([Verb(a), Verb(b)]), t) <==> t == [a, b]
    {
      SplitPath(Verb(a), Verb(b), t);
      assert t == [a, b] ==> t[..1] == [a] && t[1..] == [b];
    }
  }

  lemma KeptTwo(a: Leaf, b: Leaf)
    requires a == Leaf("h", "a") && b == Leaf("h", "b")
    ensures Kept([a, b], Now({"b"})) == [a] && Kept([a, b], Later({"b"})) == [b]
    ensures Kept([], Now({"b"})) == [] && Kept([], Later({"b"})) == []
  {
    assert [a, b][..1] == [a] && [a][..0] == [];
    assert Kept([a], Now({"b"})) == [a] && Kept([a], Later({"b"})) == [];
  }

  lemma RunTwo(a: Leaf, b: Leaf)
    requires a == Leaf("h", "a") && b == Leaf("h", "b")
    ensures Run(OPEN_THEN_SEND, "new", [a] + [b]).Some? && Run(OPEN_THEN_SEND, "new", []).Some?
    ensures Run(OPEN_THEN_SEND, "new", [b]).None?
  {
    var t := [a] + [b];
    assert t[..1] == [a] && t[1] == b && [a][..0] == [] && [b][..0] == [];
    assert Run(OPEN_THEN_SEND, "new", [a]) == Some("open");
  }
}
