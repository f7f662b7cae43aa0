// The metering shapes of a plan and the concrete paths they stand for.

module PlanShapes {
  import opened Prelude

  datatype Leaf = Leaf(handler: Name, verb: Name)

  datatype Plan =
    | Verb(leaf: Leaf)
    | Seq(items: seq<Plan>)
    | Loop(bound: U64, body: Plan)
    | Branch(left: Plan, right: Plan)

  type Path = seq<Leaf>

  // A concrete run: loops take any number of rounds up to their bound, branches either arm.
  predicate IsPath(plan: Plan, t: Path)
    decreases plan, 0
  {
    match plan
    case Verb(leaf) => t == [leaf]
    case Seq(items) => IsSeqPath(items, t)
    case Loop(bound, body) => IsLoopPath(body, bound, t)
    case Branch(a, b) => IsPath(a, t) || IsPath(b, t)
  }

  predicate IsSeqPath(items: seq<Plan>, t: Path)
    decreases items, 0
  {
    if items == [] then t == []
    else
      exists k :: 0 <= k <= |t| && IsSeqPath(items[..|items| - 1], t[..k]) && IsPath(items[|items| - 1], t[k..])
  }

  predicate IsLoopPath(body: Plan, bound: nat, t: Path)
    decreases body, bound + 2
  {
    exists n :: 0 <= n <= bound && IsRounds(body, n, t)
  }

  predicate IsRounds(body: Plan, n: nat, t: Path)
    decreases body, n + 1
  {
    if n == 0 then t == []
    else exists k :: 0 <= k <= |t| && IsRounds(body, n - 1, t[..k]) && IsPath(body, t[k..])
  }

  // ----- building paths -----

  lemma SeqPathGrows(items: seq<Plan>, p: Plan, t: Path, u: Path)
    requires IsSeqPath(items, t) && IsPath(p, u)
    ensures IsSeqPath(items + [p], t + u)
  {
    var all := items + [p];
    assert all[..|all| - 1] == items;
    assert (t + u)[..|t|] == t && (t + u)[|t|..] == u;
  }

  lemma RoundsGrow(body: Plan, n: nat, t: Path, u: Path)
    requires IsRounds(body, n, t) && IsPath(body, u)
    ensures IsRounds(body, n + 1, t + u)
  {
    assert (t + u)[..|t|] == t && (t + u)[|t|..] == u;
  }

  lemma SeqPathSplits(items: seq<Plan>, t: Path) returns (k: nat)
    requires IsSeqPath(items, t) && items != []
    ensures k <= |t| && IsSeqPath(items[..|items| - 1], t[..k]) && IsPath(items[|items| - 1], t[k..])
    ensures t == t[..k] + t[k..]
  {
    k :| 0 <= k <= |t| && IsSeqPath(items[..|items| - 1], t[..k]) && IsPath(items[|items| - 1], t[k..]);
  }

  lemma RoundsSplit(body: Plan, n: nat, t: Path) returns (k: nat)
    requires n > 0 && IsRounds(body, n, t)
    ensures k <= |t| && IsRounds(body, n - 1, t[..k]) && IsPath(body, t[k..])
    ensures t == t[..k] + t[k..]
  {
    k :| 0 <= k <= |t| && IsRounds(body, n - 1, t[..k]) && IsPath(body, t[k..]);
  }

  lemma RoundsOf(body: Plan, bound: nat, t: Path) returns (n: nat)
    requires IsLoopPath(body, bound, t)
    ensures n <= bound && IsRounds(body, n, t)
  {
    n :| 0 <= n <= bound && IsRounds(body, n, t);
  }

  lemma NoRounds(body: Plan, t: Path)
    ensures IsRounds(body, 0, t) <==> t == []
    ensures IsLoopPath(body, 0, t) <==> t == []
  {
    assert IsRounds(body, 0, []);
  }

  lemma LoopPathGrows(body: Plan, n: nat, t: Path)
    ensures IsLoopPath(body, n + 1, t) <==> IsLoopPath(body, n, t) || IsRounds(body, n + 1, t)
  {
    hide IsRounds;
  }

  // Every plan has a path.
  lemma {:induction false} SomePath(plan: Plan) returns (t: Path)
    ensures IsPath(plan, t)
    decreases plan, 0
  {
    match plan {
      case Verb(leaf) => t := [leaf];
      case Seq(items) => t := SomeSeqPath(items);
      case Loop(bound, body) =>
        t := [];
        assert IsRounds(body, 0, t);
      case Branch(a, b) => t := SomePath(a);
    }
  }

  lemma {:induction false} SomeSeqPath(items: seq<Plan>) returns (t: Path)
    ensures IsSeqPath(items, t)
    decreases items, 0
  {
    if items == [] {
      t := [];
    } else {
      var n := |items| - 1;
      t := SomeSeqPath(items[..n]);
      var u := SomePath(items[n]);
      assert items == items[..n] + [items[n]];
      SeqPathGrows(items[..n], items[n], t, u);
      t := t + u;
    }
  }

  // ----- enumerating paths, with the loops the reference enumeration runs -----

  ghost predicate Enumerates(paths: seq<Path>, plan: Plan) {
    forall t {:trigger IsPath(plan, t)} {:trigger t in paths} :: t in paths <==> IsPath(plan, t)
  }

  method Extend(prefixes: seq<Path>, tails: seq<Path>) returns (out: seq<Path>)
    ensures forall t {:trigger t in out} :: t in out <==>
              exists i, j :: 0 <= i < |prefixes| && 0 <= j < |tails| && t == prefixes[i] + tails[j]
  {
    out := [];
    for i := 0 to |prefixes|
      invariant forall t {:trigger t in out} :: t in out <==>
                  exists x, j :: 0 <= x < i && 0 <= j < |tails| && t == prefixes[x] + tails[j]
    {
      ghost var before := out;
      for j := 0 to |tails|
        invariant forall t {:trigger t in out} :: t in out <==>
                    t in before || exists y :: 0 <= y < j && t == prefixes[i] + tails[y]
      {
        out := out + [prefixes[i] + tails[j]];
      }
    }
  }

  ghost predicate EnumeratesSeq(paths: seq<Path>, items: seq<Plan>) {
    forall t {:trigger IsSeqPath(items, t)} {:trigger t in paths} :: t in paths <==> IsSeqPath(items, t)
  }

  ghost predicate EnumeratesRounds(paths: seq<Path>, body: Plan, n: nat) {
    forall t {:trigger IsRounds(body, n, t)} {:trigger t in paths} :: t in paths <==> IsRounds(body, n, t)
  }

  lemma ExtendSeq(acc: seq<Path>, sub: seq<Path>, out: seq<Path>, items: seq<Plan>, p: Plan)
    requires EnumeratesSeq(acc, items) && Enumerates(sub, p)
    requires forall t {:trigger t in out} :: t in out <==>
               exists i, j :: 0 <= i < |acc| && 0 <= j < |sub| && t == acc[i] + sub[j]
    ensures EnumeratesSeq(out, items + [p])
  {
    hide IsSeqPath, IsPath;
    var all := items + [p];
    assert all[..|all| - 1] == items;
    forall t
      ensures t in out <==> IsSeqPath(all, t)
    {
      if t in out {
        var i, j :| 0 <= i < |acc| && 0 <= j < |sub| && t == acc[i] + sub[j];
        assert acc[i] in acc && sub[j] in sub;
        SeqPathGrows(items, p, acc[i], sub[j]);
      }
      if IsSeqPath(all, t) {
        var k := SeqPathSplits(all, t);
        assert t[..k] in acc && t[k..] in sub;
        var i :| 0 <= i < |acc| && acc[i] == t[..k];
        var j :| 0 <= j < |sub| && sub[j] == t[k..];
        assert t == acc[i] + sub[j];
      }
    }
  }

  lemma ExtendRounds(acc: seq<Path>, sub: seq<Path>, out: seq<Path>, body: Plan, n: nat)
    requires EnumeratesRounds(acc, body, n) && Enumerates(sub, body)
    requires forall t {:trigger t in out} :: t in out <==>
               exists i, j :: 0 <= i < |acc| && 0 <= j < |sub| && t == acc[i] + sub[j]
    ensures EnumeratesRounds(out, body, n + 1)
  {
    hide IsRounds, IsPath;
    forall t
      ensures t in out <==> IsRounds(body, n + 1, t)
    {
      if t in out {
        var i, j :| 0 <= i < |acc| && 0 <= j < |sub| && t == acc[i] + sub[j];
        assert acc[i] in acc && sub[j] in sub;
        RoundsGrow(body, n, acc[i], sub[j]);
      }
      if IsRounds(body, n + 1, t) {
        var k := RoundsSplit(body, n + 1, t);
        assert t[..k] in acc && t[k..] in sub;
        var i :| 0 <= i < |acc| && acc[i] == t[..k];
        var j :| 0 <= j < |sub| && sub[j] == t[k..];
        assert t == acc[i] + sub[j];
      }
    }
  }

  lemma MoreRounds(paths: seq<Path>, next: seq<Path>, body: Plan, n: nat)
    requires forall t {:trigger t in paths} :: t in paths <==> IsLoopPath(body, n, t)
    requires EnumeratesRounds(next, body, n + 1)
    ensures forall t {:trigger t in paths + next} :: t in paths + next <==> IsLoopPath(body, n + 1, t)
  {
    hide IsLoopPath, IsRounds;
    forall t
      ensures t in paths + next <==> IsLoopPath(body, n + 1, t)
    {
      LoopPathGrows(body, n, t);
      assert t in paths + next <==> t in paths || t in next;
    }
  }

  lemma RoundsBegin(body: Plan)
    ensures EnumeratesRounds([[]], body, 0)
    ensures forall t {:trigger t in [[]]} :: t in [[]] <==> IsLoopPath(body, 0, t)
  {
    forall t
      ensures t in [[]] <==> IsRounds(body, 0, t)
      ensures t in [[]] <==> IsLoopPath(body, 0, t)
    {
      NoRounds(body, t);
    }
  }

  // The enumeration lists exactly the paths.
  method EnumeratePaths(plan: Plan) returns (paths: seq<Path>)
    ensures Enumerates(paths, plan)
    decreases plan
  {
    match plan {
      case Verb(leaf) => paths := [[leaf]];
      case Seq(items) =>
        paths := [[]];
        for i := 0 to |items|
          invariant EnumeratesSeq(paths, items[..i])
        {
          var sub := EnumeratePaths(items[i]);
          var next := Extend(paths, sub);
          ExtendSeq(paths, sub, next, items[..i], items[i]);
          assert items[..i + 1] == items[..i] + [items[i]];
          paths := next;
        }
        assert items[..|items|] == items;
      case Loop(bound, body) =>
        var sub := EnumeratePaths(body);
        paths := [[]];
        var prefixes: seq<Path> := [[]];
        RoundsBegin(body);
        for n := 0 to bound
          invariant EnumeratesRounds(prefixes, body, n)
          invariant forall t {:trigger t in paths} :: t in paths <==> IsLoopPath(body, n, t)
        {
          var next := Extend(prefixes, sub);
          ExtendRounds(prefixes, sub, next, body, n);
          MoreRounds(paths, next, body, n);
          paths := paths + next;
          prefixes := next;
        }
      case Branch(a, b) =>
        var left := EnumeratePaths(a);
        var right := EnumeratePaths(b);
        paths := left + right;
    }
  }

  // ----- projection onto the kept verbs -----

  function Project(plan: Plan, keep: Name -> bool): Plan
    decreases plan, 0
  {
    match plan
    case Verb(leaf) => if keep(leaf.verb) then plan else Seq([])
    case Seq(items) => Seq(ProjectAll(items, keep))
    case Loop(bound, body) => Loop(bound, Project(body, keep))
    case Branch(a, b) => Branch(Project(a, keep), Project(b, keep))
  }

  function ProjectAll(items: seq<Plan>, keep: Name -> bool): (r: seq<Plan>)
    ensures |r| == |items|
    decreases items, 0
  {
    if items == [] then [] else ProjectAll(items[..|items| - 1], keep) + [Project(items[|items| - 1], keep)]
  }

  function Kept(t: Path, keep: Name -> bool): Path {
    if t == [] then []
    else Kept(t[..|t| - 1], keep) + (if keep(t[|t| - 1].verb) then [t[|t| - 1]] else [])
  }

  lemma {:induction false} KeptConcat(t: Path, u: Path, keep: Name -> bool)
    ensures Kept(t + u, keep) == Kept(t, keep) + Kept(u, keep)
    decreases |u|
  {
    if u == [] {
      assert t + u == t;
    } else {
      var n := |u| - 1;
      assert (t + u)[..|t + u| - 1] == t + u[..n];
      KeptConcat(t, u[..n], keep);
    }
  }

  // The paths of the projection are exactly the projections of the paths.
  lemma {:induction false} ProjectForward(plan: Plan, keep: Name -> bool, t: Path)
    requires IsPath(plan, t)
    ensures IsPath(Project(plan, keep), Kept(t, keep))
    decreases plan, 0
  {
    match plan {
      case Verb(leaf) =>
        assert t[..0] == [];
      case Seq(items) => ProjectSeqForward(items, keep, t);
      case Loop(bound, body) =>
        var n := RoundsOf(body, bound, t);
        ProjectRoundsForward(body, keep, n, t);
      case Branch(a, b) =>
        if IsPath(a, t) {
          ProjectForward(a, keep, t);
        } else {
          ProjectForward(b, keep, t);
        }
    }
  }

  lemma {:induction false} ProjectSeqForward(items: seq<Plan>, keep: Name -> bool, t: Path)
    requires IsSeqPath(items, t)
    ensures IsSeqPath(ProjectAll(items, keep), Kept(t, keep))
    decreases items, 0
  {
    hide Project, Kept, IsPath;
    if items != [] {
      var n := |items| - 1;
      var k := SeqPathSplits(items, t);
      ProjectSeqForward(items[..n], keep, t[..k]);
      ProjectForward(items[n], keep, t[k..]);
      SeqPathGrows(ProjectAll(items[..n], keep), Project(items[n], keep), Kept(t[..k], keep), Kept(t[k..], keep));
      KeptConcat(t[..k], t[k..], keep);
    } else {
      KeptNothing(keep);
    }
  }

  lemma KeptNothing(keep: Name -> bool)
    ensures Kept([], keep) == []
  {
  }

  lemma {:induction false} ProjectRoundsForward(body: Plan, keep: Name -> bool, n: nat, t: Path)
    requires IsRounds(body, n, t)
    ensures IsRounds(Project(body, keep), n, Kept(t, keep))
    decreases body, n + 1
  {
    hide Project, Kept, IsPath, IsRounds;
    if n > 0 {
      var k := RoundsSplit(body, n, t);
      ProjectRoundsForward(body, keep, n - 1, t[..k]);
      ProjectForward(body, keep, t[k..]);
      RoundsGrow(Project(body, keep), n - 1, Kept(t[..k], keep), Kept(t[k..], keep));
      KeptConcat(t[..k], t[k..], keep);
    } else {
      NoRounds(body, t);
      NoRounds(Project(body, keep), []);
      KeptNothing(keep);
    }
  }

  lemma {:induction false} ProjectBack(plan: Plan, keep: Name -> bool, u: Path) returns (t: Path)
    requires IsPath(Project(plan, keep), u)
    ensures IsPath(plan, t) && Kept(t, keep) == u
    decreases plan, 0
  {
    match plan {
      case Verb(leaf) =>
        t := [leaf];
        assert t[..0] == [];
      case Seq(items) => t := ProjectSeqBack(items, keep, u);
      case Loop(bound, body) =>
        var n := RoundsOf(Project(body, keep), bound, u);
        t := ProjectRoundsBack(body, keep, n, u);
      case Branch(a, b) =>
        if IsPath(Project(a, keep), u) {
          t := ProjectBack(a, keep, u);
        } else {
          t := ProjectBack(b, keep, u);
        }
    }
  }

  lemma {:induction false} ProjectSeqBack(items: seq<Plan>, keep: Name -> bool, u: Path) returns (t: Path)
    requires IsSeqPath(ProjectAll(items, keep), u)
    ensures IsSeqPath(items, t) && Kept(t, keep) == u
    decreases items, 0
  {
    hide Project, Kept, IsPath;
    if items == [] {
      t := [];
      KeptNothing(keep);
    } else {
      var n := |items| - 1;
      var k := SeqPathSplits(ProjectAll(items, keep), u);
      var all := ProjectAll(items, keep);
      assert all[..|all| - 1] == ProjectAll(items[..n], keep) && all[|all| - 1] == Project(items[n], keep);
      var a := ProjectSeqBack(items[..n], keep, u[..k]);
      var b := ProjectBack(items[n], keep, u[k..]);
      t := a + b;
      SeqPathGrows(items[..n], items[n], a, b);
      assert items == items[..n] + [items[n]];
      KeptConcat(a, b, keep);
    }
  }

  lemma {:induction false} ProjectRoundsBack(body: Plan, keep: Name -> bool, n: nat, u: Path) returns (t: Path)
    requires IsRounds(Project(body, keep), n, u)
    ensures IsRounds(body, n, t) && Kept(t, keep) == u
    decreases body, n + 1
  {
    hide Project, Kept, IsPath, IsRounds;
    if n == 0 {
      t := [];
      NoRounds(body, t);
      NoRounds(Project(body, keep), u);
      KeptNothing(keep);
    } else {
      var k := RoundsSplit(Project(body, keep), n, u);
      var a := ProjectRoundsBack(body, keep, n - 1, u[..k]);
      var b := ProjectBack(body, keep, u[k..]);
      t := a + b;
      RoundsGrow(body, n - 1, a, b);
      KeptConcat(a, b, keep);
    }
  }
}
