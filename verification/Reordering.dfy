// When the world-order check is exact: a condition on the plan and the withheld verbs alone.

module Reordering {
  import opened Prelude
  import opened PlanShapes
  import opened Protocol

  // `x` shows the verbs of a prefix of `y`.
  predicate Leads(x: Path, y: Path) {
    |x| <= |y| && forall i :: 0 <= i < |x| ==> x[i].verb == y[i].verb
  }

  // What the check looks at: the immediate effects of one path, then the withheld ones of another.
  function SplitOrder(t: Path, u: Path, withhold: set<Name>): Path {
    Kept(t, Now(withhold)) + Kept(u, Later(withhold))
  }

  // A verb without a name can be in no automaton's scope, so no automaton sees it.
  predicate Seeable(v: Name) {
    v != ""
  }

  function Visible(t: Path): Path {
    Kept(t, Seeable)
  }

  ghost predicate Shown(plan: Plan, withhold: set<Name>, x: Path) {
    exists w :: IsPath(plan, w) && Leads(Visible(x), Visible(WorldOrder(w, withhold)))
  }

  // Every split order is, as far as it can be seen, the beginning of what some single path shows
  // the world.
  ghost predicate SplitsShown(plan: Plan, withhold: set<Name>) {
    forall t, u :: IsPath(plan, t) && IsPath(plan, u) ==> Shown(plan, withhold, SplitOrder(t, u, withhold))
  }

  // The automata an accepted draft describes.
  ghost predicate Drafted(p: Automaton, d: Draft) {
    Acceptable(d) && p.initial == d.initial && Describes(d, |d.transitions|, p.transitions, p.scoped)
  }

  ghost predicate Buildable(p: Automaton) {
    exists d :: Drafted(p, d)
  }

  // For this plan the check refuses no automaton under which every reordering is legal.
  ghost predicate CheckExact(plan: Plan, withhold: set<Name>) {
    forall p: Automaton :: Buildable(p) ==>
      (AllSplitsLegal(p, plan, Now(withhold), Later(withhold)) <==> WorldOrdersLegal(p, plan, withhold))
  }

  // ----- runs see verbs only -----

  lemma {:induction false} SameVerbsSameRun(p: Automaton, state: Name, x: Path, y: Path)
    requires |x| == |y| && Leads(x, y)
    ensures Run(p, state, x) == Run(p, state, y)
  {
    if x != [] {
      SameVerbsSameRun(p, state, x[..|x| - 1], y[..|y| - 1]);
    }
  }

  lemma NothingUnnamed(p: Automaton)
    requires Buildable(p)
    ensures "" !in p.scoped
  {
    var d :| Drafted(p, d);
    forall v | v in p.scoped
      ensures v != ""
    {
      var i :| 0 <= i < |d.transitions| && d.transitions[i].1 == v;
      assert Named(d.transitions[i]);
    }
  }

  lemma {:induction false} VisibleRun(p: Automaton, state: Name, x: Path)
    requires "" !in p.scoped
    ensures Run(p, state, x) == Run(p, state, Visible(x))
  {
    if x != [] {
      var n := |x| - 1;
      VisibleRun(p, state, x[..n]);
      var y := Visible(x);
      if Seeable(x[n].verb) {
        assert y == Visible(x[..n]) + [x[n]];
        assert y[..|y| - 1] == Visible(x[..n]) && y[|y| - 1] == x[n];
      } else {
        assert y == Visible(x[..n]);
      }
    }
  }

  lemma LeadingRuns(p: Automaton, x: Path, y: Path)
    requires "" !in p.scoped && Leads(Visible(x), Visible(y)) && Run(p, p.initial, y).Some?
    ensures Run(p, p.initial, x).Some?
  {
    hide Visible;
    VisibleRun(p, p.initial, x);
    VisibleRun(p, p.initial, y);
    PrefixClosed(p, p.initial, Visible(y), |Visible(x)|);
    SameVerbsSameRun(p, p.initial, Visible(x), Visible(y)[..|Visible(x)|]);
  }

  // ----- the verbs of a plan -----

  function PlanVerbs(plan: Plan): set<Name>
    decreases plan, 0
  {
    match plan
    case Verb(l) => {l.verb}
    case Seq(items) => SeqVerbs(items)
    case Loop(_, body) => PlanVerbs(body)
    case Branch(a, b) => PlanVerbs(a) + PlanVerbs(b)
  }

  function SeqVerbs(items: seq<Plan>): set<Name>
    decreases items, 0
  {
    if items == [] then {} else SeqVerbs(items[..|items| - 1]) + PlanVerbs(items[|items| - 1])
  }

  predicate Within(t: Path, names: set<Name>) {
    forall i :: 0 <= i < |t| ==> t[i].verb in names
  }

  lemma WithinSplit(t: Path, k: nat, names: set<Name>)
    requires k <= |t| && Within(t[..k], names) && Within(t[k..], names)
    ensures Within(t, names)
  {
    forall i | 0 <= i < |t|
      ensures t[i].verb in names
    {
      assert t[i] == if i < k then t[..k][i] else t[k..][i - k];
    }
  }

  lemma {:induction false} PathWithinPlan(plan: Plan, t: Path)
    requires IsPath(plan, t)
    ensures Within(t, PlanVerbs(plan))
    decreases plan, 0
  {
    match plan {
      case Verb(_) =>
      case Seq(items) => SeqWithinPlan(items, t);
      case Loop(bound, body) =>
        var n := RoundsOf(body, bound, t);
        RoundsWithinPlan(body, n, t);
      case Branch(a, b) =>
        if IsPath(a, t) {
          PathWithinPlan(a, t);
        } else {
          PathWithinPlan(b, t);
        }
    }
  }

  lemma {:induction false} SeqWithinPlan(items: seq<Plan>, t: Path)
    requires IsSeqPath(items, t)
    ensures Within(t, SeqVerbs(items))
    decreases items, 0
  {
    if items != [] {
      var n := |items| - 1;
      var k := SeqPathSplits(items, t);
      SeqWithinPlan(items[..n], t[..k]);
      PathWithinPlan(items[n], t[k..]);
      WithinSplit(t, k, SeqVerbs(items));
    }
  }

  lemma {:induction false} RoundsWithinPlan(body: Plan, n: nat, t: Path)
    requires IsRounds(body, n, t)
    ensures Within(t, PlanVerbs(body))
    decreases body, 1, n
  {
    if n == 0 {
      NoRounds(body, t);
    } else {
      var k := RoundsSplit(body, n, t);
      RoundsWithinPlan(body, n - 1, t[..k]);
      PathWithinPlan(body, t[k..]);
      WithinSplit(t, k, PlanVerbs(body));
    }
  }

  lemma {:induction false} KeptWithin(t: Path, keep: Name -> bool, names: set<Name>)
    requires Within(t, names)
    ensures Within(Kept(t, keep), names)
  {
    if t != [] {
      var n := |t| - 1;
      assert Within(t[..n], names) by {
        forall i | 0 <= i < n
          ensures t[..n][i].verb in names
        {
          assert t[i].verb in names;
        }
      }
      KeptWithin(t[..n], keep, names);
    }
  }

  lemma OrderWithin(plan: Plan, t: Path, u: Path, withhold: set<Name>)
    requires IsPath(plan, t) && IsPath(plan, u)
    ensures Within(SplitOrder(t, u, withhold), PlanVerbs(plan))
  {
    PathWithinPlan(plan, t);
    PathWithinPlan(plan, u);
    KeptWithin(t, Now(withhold), PlanVerbs(plan));
    KeptWithin(u, Later(withhold), PlanVerbs(plan));
    var x, k := SplitOrder(t, u, withhold), |Kept(t, Now(withhold))|;
    assert x[..k] == Kept(t, Now(withhold)) && x[k..] == Kept(u, Later(withhold));
    WithinSplit(x, k, PlanVerbs(plan));
  }

  lemma {:induction false} VisibleWithin(t: Path, names: set<Name>)
    requires Within(t, names)
    ensures Within(Visible(t), names - {""})
  {
    if t != [] {
      var n := |t| - 1;
      assert t[n].verb in names;
      assert Within(t[..n], names) by {
        forall i | 0 <= i < n
          ensures t[..n][i].verb in names
        {
          assert t[i].verb in names;
        }
      }
      VisibleWithin(t[..n], names);
    }
  }

  // ----- an automaton that forbids exactly one word -----

  const FREE: Name := "free"

  // `i` letters of the forbidden word were seen, and nothing else.
  function Seen(i: nat): (r: Name)
    ensures |r| == i + 1 && r != FREE
  {
    var r := seq(i + 1, _ => 'q');
    assert r[0] == 'q' && FREE[0] == 'f';
    r
  }

  function TrapStates(x: Path): set<Name> {
    (set i | 0 <= i < |x| :: Seen(i)) + {FREE}
  }

  // Where a letter leads: on along the forbidden word, or free; the last letter leads nowhere.
  function After(x: Path, s: Name, v: Name): Option<Name> {
    if s == FREE || |s| == 0 || |s| > |x| || v != x[|s| - 1].verb then Some(FREE)
    else if |s| < |x| then Some(Seen(|s|))
    else None
  }

  function TrapKeys(x: Path, scope: set<Name>): set<(Name, Name)> {
    set s, v | s in TrapStates(x) && v in scope && After(x, s, v).Some? :: (s, v)
  }

  function Trap(x: Path, scope: set<Name>): Automaton {
    Automaton(Seen(0), map k | k in TrapKeys(x, scope) :: After(x, k.0, k.1).value, scope)
  }

  lemma TrapStep(x: Path, scope: set<Name>, s: Name, v: Name)
    requires s in TrapStates(x) && v in scope
    ensures match After(x, s, v)
            case Some(next) => Step(Trap(x, scope), s, v) == Ok(next)
            case None => Step(Trap(x, scope), s, v).Err?
  {
    hide TrapStates, After;
    assert (s, v) in TrapKeys(x, scope) <==> After(x, s, v).Some?;
  }

  // The trap refuses exactly the words that begin with the forbidden one.
  lemma {:induction false} TrapRuns(x: Path, scope: set<Name>, y: Path)
    requires x != [] && Within(y, scope)
    ensures Run(Trap(x, scope), Seen(0), y) ==
            if Leads(x, y) then None else Some(if Leads(y, x) then Seen(|y|) else FREE)
  {
    hide Trap, Leads, Step;
    if y == [] {
      LeadsNothing(x);
    } else {
      var n := |y| - 1;
      assert Within(y[..n], scope) by {
        forall i | 0 <= i < n
          ensures y[..n][i].verb in scope
        {
          assert y[i].verb in scope;
        }
      }
      TrapRuns(x, scope, y[..n]);
      assert y[n].verb in scope;
      LeadsGrows(x, y);
      var state := if Leads(y[..n], x) && n < |x| then Seen(n) else FREE;
      TrapStep(x, scope, state, y[n].verb);
    }
  }

  lemma LeadsNothing(x: Path)
    ensures Leads([], x) && (Leads(x, []) <==> x == [])
  {
  }

  lemma LeadsGrows(x: Path, y: Path)
    requires y != []
    ensures var n := |y| - 1;
            && (Leads(x, y) <==> Leads(x, y[..n]) || (|x| == |y| && Leads(y[..n], x) && x[n].verb == y[n].verb))
            && (Leads(y, x) <==> Leads(y[..n], x) && n < |x| && x[n].verb == y[n].verb)
            && (Leads(y[..n], x) && !Leads(x, y[..n]) ==> n < |x|)
  {
    var n := |y| - 1;
    assert forall i :: 0 <= i < n ==> y[..n][i] == y[i];
  }

  // ----- an accepted draft describes it -----

  // A table as a list of its entries.
  ghost predicate Lists(ts: seq<(Name, Name, Name)>, m: map<(Name, Name), Name>) {
    && (forall i {:trigger ts[i]} :: 0 <= i < |ts| ==> (ts[i].0, ts[i].1) in m && m[(ts[i].0, ts[i].1)] == ts[i].2)
    && (forall k {:trigger k in m} :: k in m ==> exists i :: 0 <= i < |ts| && (ts[i].0, ts[i].1) == k)
    && (forall i, j :: 0 <= i < j < |ts| ==> (ts[i].0, ts[i].1) != (ts[j].0, ts[j].1))
  }

  lemma {:induction false} ListTable(m: map<(Name, Name), Name>) returns (ts: seq<(Name, Name, Name)>)
    ensures Lists(ts, m)
    decreases |m|
  {
    if m == map[] {
      ts := [];
    } else {
      var k :| k in m;
      var rest := m - {k};
      assert |rest| < |m| by { assert m.Keys == rest.Keys + {k}; }
      var front := ListTable(rest);
      ts := front + [(k.0, k.1, m[k])];
      ListOneMore(front, rest, m, k);
    }
  }

  lemma ListOneMore(front: seq<(Name, Name, Name)>, rest: map<(Name, Name), Name>, m: map<(Name, Name), Name>,
                    k: (Name, Name))
    requires Lists(front, rest) && k in m && rest == m - {k}
    ensures Lists(front + [(k.0, k.1, m[k])], m)
  {
    var ts := front + [(k.0, k.1, m[k])];
    var n := |front|;
    forall i | 0 <= i < |ts|
      ensures (ts[i].0, ts[i].1) in m && m[(ts[i].0, ts[i].1)] == ts[i].2
      ensures i < n ==> (ts[i].0, ts[i].1) != k
    {
      if i < n {
        assert ts[i] == front[i];
        assert (front[i].0, front[i].1) in rest;
      }
    }
    forall j | j in m
      ensures exists i :: 0 <= i < |ts| && (ts[i].0, ts[i].1) == j
    {
      if j == k {
        assert (ts[n].0, ts[n].1) == k;
      } else {
        assert j in rest;
        var i :| 0 <= i < n && (front[i].0, front[i].1) == j;
        assert ts[i] == front[i];
      }
    }
    forall i, j | 0 <= i < j < |ts|
      ensures (ts[i].0, ts[i].1) != (ts[j].0, ts[j].1)
    {
      assert ts[i] == front[i];
      assert j < n ==> ts[j] == front[j];
    }
  }

  // A table with named entries, over exactly the scoped verbs, comes from a draft.
  lemma TableBuildable(p: Automaton)
    requires p.initial != ""
    requires forall k :: k in p.transitions ==> k.0 != "" && k.1 != "" && p.transitions[k] != "" && k.1 in p.scoped
    requires forall v :: v in p.scoped ==> exists k :: k in p.transitions && k.1 == v
    ensures Buildable(p)
  {
    var ts := ListTable(p.transitions);
    var d := Draft(p.initial, ts);
    forall i | 0 <= i < |ts|
      ensures Named(ts[i]) && ts[i].1 in p.scoped
    {
      assert (ts[i].0, ts[i].1) in p.transitions;
    }
    forall i: nat, j: nat
      ensures !SamePair(d, i, j)
    {
      if i < j < |ts| {
        assert (ts[i].0, ts[i].1) != (ts[j].0, ts[j].1);
      }
    }
    forall v | v in p.scoped
      ensures exists i :: 0 <= i < |ts| && ts[i].1 == v
    {
      var k :| k in p.transitions && k.1 == v;
      var i :| 0 <= i < |ts| && (ts[i].0, ts[i].1) == k;
    }
    assert Drafted(p, d);
  }

  lemma TrapBuildable(x: Path, scope: set<Name>)
    requires "" !in scope
    ensures Buildable(Trap(x, scope))
  {
    var p := Trap(x, scope);
    forall k | k in p.transitions
      ensures k.0 != "" && k.1 != "" && p.transitions[k] != "" && k.1 in p.scoped
    {
      assert k in TrapKeys(x, scope);
    }
    forall v | v in p.scoped
      ensures exists k :: k in p.transitions && k.1 == v
    {
      assert (FREE, v) in TrapKeys(x, scope);
      assert (FREE, v) in p.transitions;
    }
    TableBuildable(p);
  }

  // ----- the exact condition -----

  lemma ShownIsEnough(plan: Plan, withhold: set<Name>)
    requires SplitsShown(plan, withhold)
    ensures CheckExact(plan, withhold)
  {
    hide IsPath, Kept, Run, Buildable;
    forall p: Automaton | Buildable(p)
      ensures AllSplitsLegal(p, plan, Now(withhold), Later(withhold)) <==> WorldOrdersLegal(p, plan, withhold)
    {
      SplitsCover(p, plan, withhold);
      NothingUnnamed(p);
      if WorldOrdersLegal(p, plan, withhold) {
        forall t, u | IsPath(plan, t) && IsPath(plan, u)
          ensures Run(p, p.initial, Kept(t, Now(withhold)) + Kept(u, Later(withhold))).Some?
        {
          var x := SplitOrder(t, u, withhold);
          assert Shown(plan, withhold, x);
          var w :| IsPath(plan, w) && Leads(Visible(x), Visible(WorldOrder(w, withhold)));
          LeadingRuns(p, x, WorldOrder(w, withhold));
        }
      }
    }
  }

  // A split order that no path shows is forbidden by a draft's automaton that allows every
  // reordering.
  lemma TrapSeparates(plan: Plan, withhold: set<Name>, t: Path, u: Path)
    requires IsPath(plan, t) && IsPath(plan, u) && !Shown(plan, withhold, SplitOrder(t, u, withhold))
    ensures exists p ::
              && Buildable(p) && WorldOrdersLegal(p, plan, withhold)
              && !AllSplitsLegal(p, plan, Now(withhold), Later(withhold))
  {
    hide IsPath, Kept, Run, Trap, Buildable, Visible;
    var split, scope := SplitOrder(t, u, withhold), PlanVerbs(plan) - {""};
    var x := Visible(split);
    LeadsNothing(Visible(WorldOrder(t, withhold)));
    assert x != [];
    var p := Trap(x, scope);
    TrapInitial(x, scope);
    TrapBuildable(x, scope);
    forall w | IsPath(plan, w)
      ensures Run(p, p.initial, WorldOrder(w, withhold)).Some?
    {
      OrderWithin(plan, w, w, withhold);
      VisibleWithin(WorldOrder(w, withhold), PlanVerbs(plan));
      TrapRuns(x, scope, Visible(WorldOrder(w, withhold)));
      VisibleRun(p, p.initial, WorldOrder(w, withhold));
    }
    OrderWithin(plan, t, u, withhold);
    VisibleWithin(split, PlanVerbs(plan));
    TrapRuns(x, scope, x);
    VisibleRun(p, p.initial, split);
    assert Run(p, p.initial, Kept(t, Now(withhold)) + Kept(u, Later(withhold))).None?;
    assert WorldOrdersLegal(p, plan, withhold) && !AllSplitsLegal(p, plan, Now(withhold), Later(withhold));
  }

  lemma TrapInitial(x: Path, scope: set<Name>)
    requires x != []
    ensures Trap(x, scope).initial == Seen(0) && Trap(x, scope).scoped == scope
  {
  }

  // The check is exact for every automaton a draft can give if and only if every split order is,
  // as far as it can be seen, the beginning of the order that some single path shows the world.
  lemma ExactCondition(plan: Plan, withhold: set<Name>)
    ensures CheckExact(plan, withhold) <==> SplitsShown(plan, withhold)
  {
    hide AllSplitsLegal, WorldOrdersLegal, IsPath, Shown, Buildable;
    if SplitsShown(plan, withhold) {
      ShownIsEnough(plan, withhold);
    } else {
      var t, u :| IsPath(plan, t) && IsPath(plan, u) && !Shown(plan, withhold, SplitOrder(t, u, withhold));
      TrapSeparates(plan, withhold, t, u);
    }
  }

  // ----- plans that meet it -----

  // With nothing withheld, or everything, the check is exact for any plan.
  lemma OneSidedExact(plan: Plan, withhold: set<Name>)
    requires PlanVerbs(plan) !! withhold || PlanVerbs(plan) <= withhold
    ensures CheckExact(plan, withhold)
  {
    hide IsPath, Kept, CheckExact, Visible;
    forall t, u | IsPath(plan, t) && IsPath(plan, u)
      ensures Shown(plan, withhold, SplitOrder(t, u, withhold))
    {
      PathWithinPlan(plan, t);
      PathWithinPlan(plan, u);
      if PlanVerbs(plan) !! withhold {
        KeptNothing(u, Later(withhold), PlanVerbs(plan));
        KeptNothing(t, Later(withhold), PlanVerbs(plan));
        assert Leads(Visible(SplitOrder(t, u, withhold)), Visible(WorldOrder(t, withhold)));
      } else {
        KeptNothing(t, Now(withhold), PlanVerbs(plan));
        KeptNothing(u, Now(withhold), PlanVerbs(plan));
        assert Leads(Visible(SplitOrder(t, u, withhold)), Visible(WorldOrder(u, withhold)));
      }
    }
    ExactCondition(plan, withhold);
  }

  lemma {:induction false} KeptNothing(t: Path, keep: Name -> bool, names: set<Name>)
    requires Within(t, names) && forall v :: v in names ==> !keep(v)
    ensures Kept(t, keep) == []
  {
    if t != [] {
      var n := |t| - 1;
      assert t[n].verb in names;
      assert forall i :: 0 <= i < n ==> t[..n][i] == t[i];
      KeptNothing(t[..n], keep, names);
    }
  }

  // A plan without loops and branches has one path.
  predicate Straight(plan: Plan)
    decreases plan
  {
    match plan
    case Verb(_) => true
    case Seq(items) => forall i :: 0 <= i < |items| ==> Straight(items[i])
    case Loop(_, _) => false
    case Branch(_, _) => false
  }

  lemma {:induction false} OnePath(plan: Plan, t: Path, u: Path)
    requires Straight(plan) && IsPath(plan, t) && IsPath(plan, u)
    ensures t == u
    decreases plan, 0
  {
    match plan {
      case Verb(_) =>
      case Seq(items) => OneSeqPath(items, t, u);
    }
  }

  lemma {:induction false} OneSeqPath(items: seq<Plan>, t: Path, u: Path)
    requires (forall i :: 0 <= i < |items| ==> Straight(items[i])) && IsSeqPath(items, t) && IsSeqPath(items, u)
    ensures t == u
    decreases items, 0
  {
    if items != [] {
      var n := |items| - 1;
      var j := SeqPathSplits(items, t);
      var k := SeqPathSplits(items, u);
      OneSeqPath(items[..n], t[..j], u[..k]);
      OnePath(items[n], t[j..], u[k..]);
    }
  }

  // Without branches and loops the check is exact, whatever is withheld.
  lemma StraightExact(plan: Plan, withhold: set<Name>)
    requires Straight(plan)
    ensures CheckExact(plan, withhold)
  {
    hide IsPath, Kept, CheckExact, Visible;
    forall t, u | IsPath(plan, t) && IsPath(plan, u)
      ensures Shown(plan, withhold, SplitOrder(t, u, withhold))
    {
      OnePath(plan, t, u);
      assert Leads(Visible(SplitOrder(t, u, withhold)), Visible(WorldOrder(t, withhold)));
    }
    ExactCondition(plan, withhold);
  }
}
