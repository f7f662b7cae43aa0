// Half-open interval lists: sorting, merging and the canonical form.

module Ranges {
  import opened Prelude

  datatype Span = Span(lo: nat, hi: nat)

  predicate Covers(s: Span, x: nat) {
    s.lo <= x < s.hi
  }

  // The point set denoted by a list of spans.
  ghost predicate In(x: nat, v: seq<Span>) {
    exists i :: 0 <= i < |v| && Covers(v[i], x)
  }

  predicate Nonempty(v: seq<Span>) {
    forall i :: 0 <= i < |v| ==> v[i].lo < v[i].hi
  }

  // Sorted by start, pairwise disjoint, adjacent spans merged.
  predicate Canonical(v: seq<Span>) {
    && Nonempty(v)
    && forall i, j :: 0 <= i < j < |v| ==> v[i].hi < v[j].lo
  }

  ghost predicate SamePoints(a: seq<Span>, b: seq<Span>) {
    forall x: nat :: In(x, a) <==> In(x, b)
  }

  ghost predicate Separate(a: seq<Span>, b: seq<Span>) {
    forall x: nat :: !(In(x, a) && In(x, b))
  }

  predicate Apart(a: Span, b: Span) {
    a.hi <= b.lo || b.hi <= a.lo
  }

  ghost predicate PairwiseApart(v: seq<Span>) {
    forall i, j :: 0 <= i < j < |v| ==> Apart(v[i], v[j])
  }

  // ----- sorting (sort_unstable over a total order has one possible result) -----

  predicate Leq(a: Span, b: Span) {
    a.lo < b.lo || (a.lo == b.lo && a.hi <= b.hi)
  }

  predicate Sorted(v: seq<Span>) {
    forall i, j :: 0 <= i < j < |v| ==> Leq(v[i], v[j])
  }

  function Insert(s: Span, v: seq<Span>): (r: seq<Span>)
    ensures |r| == |v| + 1
  {
    if v == [] || Leq(s, v[0]) then [s] + v else [v[0]] + Insert(s, v[1..])
  }

  function Sort(v: seq<Span>): (r: seq<Span>)
    ensures |r| == |v|
  {
    if v == [] then [] else Insert(v[0], Sort(v[1..]))
  }

  lemma {:induction false} InsertContents(s: Span, v: seq<Span>)
    ensures multiset(Insert(s, v)) == multiset([s] + v)
  {
    if v == [] || Leq(s, v[0]) {
    } else {
      InsertContents(s, v[1..]);
      assert v == [v[0]] + v[1..];
    }
  }

  lemma {:induction false} InsertSorted(s: Span, v: seq<Span>)
    requires Sorted(v)
    ensures Sorted(Insert(s, v))
  {
    if v == [] || Leq(s, v[0]) {
    } else {
      InsertSorted(s, v[1..]);
      var r := Insert(s, v[1..]);
      InsertContents(s, v[1..]);
      forall k | 0 <= k < |r|
        ensures Leq(v[0], r[k])
      {
        assert r[k] in multiset([s] + v[1..]);
        assert r[k] in [s] + v[1..];
      }
    }
  }

  lemma {:induction false} SortFacts(v: seq<Span>)
    ensures multiset(Sort(v)) == multiset(v)
    ensures Sorted(Sort(v))
  {
    if v != [] {
      SortFacts(v[1..]);
      InsertContents(v[0], Sort(v[1..]));
      InsertSorted(v[0], Sort(v[1..]));
      assert v == [v[0]] + v[1..];
    }
  }

  // ----- permutation invariance of the two list properties -----

  lemma PermutationPoints(a: seq<Span>, b: seq<Span>)
    requires multiset(a) == multiset(b)
    ensures SamePoints(a, b)
    ensures Nonempty(a) ==> Nonempty(b)
  {
    forall x: nat
      ensures In(x, a) <==> In(x, b)
    {
      if In(x, a) {
        var i :| 0 <= i < |a| && Covers(a[i], x);
        assert a[i] in multiset(b);
      }
      if In(x, b) {
        var i :| 0 <= i < |b| && Covers(b[i], x);
        assert b[i] in multiset(a);
      }
    }
    forall i | 0 <= i < |b|
      ensures b[i] in a
    {
      assert b[i] in multiset(a);
    }
  }

  ghost predicate ApartFromAll(s: Span, v: seq<Span>) {
    forall t :: t in v ==> Apart(s, t)
  }

  lemma PairwiseApartCons(s: Span, v: seq<Span>)
    ensures PairwiseApart([s] + v) <==> ApartFromAll(s, v) && PairwiseApart(v)
  {
    var w := [s] + v;
    if PairwiseApart(w) {
      forall t | t in v
        ensures Apart(s, t)
      {
        var i :| 0 <= i < |v| && v[i] == t;
        assert w[0] == s && w[i + 1] == t;
        assert Apart(w[0], w[i + 1]);
      }
      forall i, j | 0 <= i < j < |v|
        ensures Apart(v[i], v[j])
      {
        assert w[i + 1] == v[i] && w[j + 1] == v[j];
      }
    }
  }

  lemma {:induction false} PairwiseApartInsert(s: Span, v: seq<Span>)
    ensures PairwiseApart(Insert(s, v)) <==> PairwiseApart([s] + v)
  {
    if v == [] || Leq(s, v[0]) {
    } else {
      var t, rest := v[0], v[1..];
      assert v == [t] + rest;
      PairwiseApartInsert(s, rest);
      PairwiseApartCons(t, Insert(s, rest));
      PairwiseApartCons(s, rest);
      PairwiseApartCons(s, v);
      PairwiseApartCons(t, rest);
      InsertContents(s, rest);
      assert ApartFromAll(s, v) <==> Apart(s, t) && ApartFromAll(s, rest) by {
        assert forall u :: u in v <==> u == t || u in rest;
      }
      assert ApartFromAll(t, Insert(s, rest)) <==> Apart(t, s) && ApartFromAll(t, rest) by {
        assert forall u :: u in Insert(s, rest) <==> u in multiset(Insert(s, rest));
        assert forall u :: u in [s] + rest <==> u in multiset([s] + rest);
        assert s in [s] + rest;
      }
    }
  }

  lemma {:induction false} PairwiseApartSort(v: seq<Span>)
    ensures PairwiseApart(Sort(v)) <==> PairwiseApart(v)
  {
    if v != [] {
      var s, rest := v[0], v[1..];
      assert v == [s] + rest;
      PairwiseApartSort(rest);
      PairwiseApartInsert(s, Sort(rest));
      PairwiseApartCons(s, rest);
      PairwiseApartCons(s, Sort(rest));
      SortFacts(rest);
      assert forall u :: u in Sort(rest) <==> u in multiset(Sort(rest));
      assert forall u :: u in rest <==> u in multiset(rest);
    }
  }

  // ----- merging a sorted list -----

  // One step of the merge: refuse an overlap, extend the last span, or start a new one.
  function Push(out: seq<Span>, s: Span): Option<seq<Span>> {
    if out == [] then Some([s])
    else
      var last := out[|out| - 1];
      if s.lo < last.hi then None
      else if s.lo == last.hi then Some(out[..|out| - 1] + [Span(last.lo, s.hi)])
      else Some(out + [s])
  }

  function Merge(v: seq<Span>): Option<seq<Span>> {
    if v == [] then Some([])
    else
      match Merge(v[..|v| - 1])
      case None => None
      case Some(out) => Push(out, v[|v| - 1])
  }

  // What the merge of a sorted nonempty-span list `v` may return.
  ghost predicate MergedAs(v: seq<Span>, r: Option<seq<Span>>) {
    && (r.Some? <==> PairwiseApart(v))
    && (r.Some? ==>
          && Canonical(r.value)
          && SamePoints(r.value, v)
          && (v == [] <==> r.value == [])
          && (v != [] ==> forall i :: 0 <= i < |v| ==> v[i].hi <= r.value[|r.value| - 1].hi))
  }

  lemma InAppend(x: nat, a: seq<Span>, b: seq<Span>)
    ensures In(x, a + b) <==> In(x, a) || In(x, b)
  {
    var c := a + b;
    if In(x, a) {
      var i :| 0 <= i < |a| && Covers(a[i], x);
      assert c[i] == a[i];
    }
    if In(x, b) {
      var i :| 0 <= i < |b| && Covers(b[i], x);
      assert c[|a| + i] == b[i];
    }
  }

  lemma PushFacts(v: seq<Span>, out: seq<Span>, s: Span)
    requires Nonempty(v + [s]) && Sorted(v + [s])
    requires MergedAs(v, Some(out))
    ensures MergedAs(v + [s], Push(out, s))
  {
    var w := v + [s];
    assert forall i :: 0 <= i < |v| ==> w[i] == v[i];
    assert w[|v|] == s;
    var r := Push(out, s);
    if out == [] {
      assert w == [s];
      assert SamePoints([s], w);
    } else {
      var last := out[|out| - 1];
      if s.lo < last.hi {
        // The last point of the merged list comes from some earlier span.
        assert Covers(last, last.hi - 1);
        assert In(last.hi - 1, out);
        assert In(last.hi - 1, v);
        var k :| 0 <= k < |v| && Covers(v[k], last.hi - 1);
        assert Leq(w[k], w[|v|]);
        assert !Apart(w[k], w[|v|]);
      } else {
        forall i, j | 0 <= i < j < |w|
          ensures Apart(w[i], w[j])
        {
          if j == |v| {
            assert v[i].hi <= last.hi;
          }
        }
        forall x: nat
          ensures In(x, r.value) <==> In(x, w)
        {
          InAppend(x, v, [s]);
          assert In(x, [s]) <==> Covers(s, x) by {
            assert [s][0] == s;
          }
          if s.lo == last.hi {
            var grown := Span(last.lo, s.hi);
            InAppend(x, out[..|out| - 1], [grown]);
            assert out == out[..|out| - 1] + [last];
            InAppend(x, out[..|out| - 1], [last]);
            assert In(x, [grown]) <==> Covers(grown, x) by { assert [grown][0] == grown; }
            assert In(x, [last]) <==> Covers(last, x) by { assert [last][0] == last; }
          } else {
            InAppend(x, out, [s]);
          }
        }
      }
    }
  }

  lemma {:induction false} MergeFacts(v: seq<Span>)
    requires Nonempty(v) && Sorted(v)
    ensures MergedAs(v, Merge(v))
  {
    if v == [] {
    } else {
      var front, s := v[..|v| - 1], v[|v| - 1];
      assert v == front + [s];
      MergeFacts(front);
      if Merge(front).Some? {
        PushFacts(front, Merge(front).value, s);
      } else {
        var i, j :| 0 <= i < j < |front| && !Apart(front[i], front[j]);
        assert v[i] == front[i] && v[j] == front[j];
      }
    }
  }

  function Normal(v: seq<Span>): Option<seq<Span>> {
    Merge(Sort(v))
  }

  // Normalisation succeeds exactly on pairwise disjoint input, and then returns a
  // canonical list with the same points.
  lemma NormalExact(v: seq<Span>)
    requires Nonempty(v)
    ensures Normal(v).Some? <==> PairwiseApart(v)
    ensures Normal(v).Some? ==> Canonical(Normal(v).value) && SamePoints(Normal(v).value, v)
  {
    SortFacts(v);
    PermutationPoints(v, Sort(v));
    MergeFacts(Sort(v));
    PairwiseApartSort(v);
  }

  // Sort, then one pass that updates the last span of the output.
  method Normalize(v: seq<Span>) returns (r: Option<seq<Span>>)
    requires Nonempty(v)
    ensures r == Normal(v)
    ensures r.Some? <==> PairwiseApart(v)
    ensures r.Some? ==> Canonical(r.value) && SamePoints(r.value, v)
  {
    NormalExact(v);
    var sorted := Sort(v);
    var out: seq<Span> := [];
    var k := 0;
    while k < |sorted|
      invariant 0 <= k <= |sorted|
      invariant Merge(sorted[..k]) == Some(out)
    {
      var s := sorted[k];
      assert sorted[..k + 1][..k] == sorted[..k] && sorted[..k + 1][k] == s;
      if out != [] {
        var last := out[|out| - 1];
        if s.lo < last.hi {
          MergeNoneMonotone(sorted, k + 1);
          return None;
        }
        if s.lo == last.hi {
          out := out[..|out| - 1] + [Span(last.lo, s.hi)];
          k := k + 1;
          continue;
        }
      }
      assert out == [] ==> out + [s] == [s];
      out := out + [s];
      k := k + 1;
    }
    assert sorted[..k] == sorted;
    return Some(out);
  }

  lemma {:induction false} MergeNoneMonotone(v: seq<Span>, k: nat)
    requires k <= |v| && Merge(v[..k]) == None
    ensures Merge(v) == None
    decreases |v| - k
  {
    if k == |v| {
      assert v[..k] == v;
    } else {
      assert v[..k + 1][..k] == v[..k];
      MergeNoneMonotone(v, k + 1);
    }
  }

  // ----- a canonical list is determined by its point set -----

  lemma HeadPoints(v: seq<Span>)
    requires Canonical(v) && v != []
    ensures In(v[0].lo, v)
    ensures forall x: nat :: In(x, v) ==> v[0].lo <= x
    ensures !In(v[0].hi, v)
    ensures forall x: nat :: In(x, v[1..]) <==> In(x, v) && v[0].hi <= x
    ensures Canonical(v[1..])
  {
    assert Covers(v[0], v[0].lo);
    forall x: nat
      ensures In(x, v) ==> v[0].lo <= x
      ensures In(x, v[1..]) <==> In(x, v) && v[0].hi <= x
    {
      if In(x, v) {
        var i :| 0 <= i < |v| && Covers(v[i], x);
        if v[0].hi <= x {
          assert v[1..][i - 1] == v[i];
        }
      }
      if In(x, v[1..]) {
        var i :| 0 <= i < |v[1..]| && Covers(v[1..][i], x);
        assert v[i + 1] == v[1..][i];
      }
    }
  }

  lemma HeadsAgree(a: seq<Span>, b: seq<Span>)
    requires Canonical(a) && Canonical(b) && SamePoints(a, b) && a != [] && b != []
    ensures a[0].lo == b[0].lo && a[0].hi <= b[0].hi
  {
    HeadPoints(a);
    HeadPoints(b);
    assert !In(b[0].hi, a);
    assert !Covers(a[0], b[0].hi);
  }

  lemma {:induction false} CanonicalUnique(a: seq<Span>, b: seq<Span>)
    requires Canonical(a) && Canonical(b) && SamePoints(a, b)
    ensures a == b
  {
    if a == [] || b == [] {
      if a != [] { HeadPoints(a); }
      if b != [] { HeadPoints(b); }
    } else {
      HeadsAgree(a, b);
      HeadsAgree(b, a);
      HeadPoints(a);
      HeadPoints(b);
      CanonicalUnique(a[1..], b[1..]);
      assert a == [a[0]] + a[1..] && b == [b[0]] + b[1..];
    }
  }

  // ----- composing canonical lists -----

  lemma SeparateApart(a: seq<Span>, b: seq<Span>, i: nat, j: nat)
    requires Canonical(a) && Canonical(b) && Separate(a, b) && i < |a| && j < |b|
    ensures Apart(a[i], b[j])
  {
    var x := if a[i].lo < b[j].lo then b[j].lo else a[i].lo;
    assert !(Covers(a[i], x) && Covers(b[j], x)) by {
      assert !(In(x, a) && In(x, b));
    }
  }

  lemma CommonPointOverlaps(a: seq<Span>, b: seq<Span>, x: nat)
    requires In(x, a) && In(x, b)
    ensures !PairwiseApart(a + b)
  {
    var c := a + b;
    var i :| 0 <= i < |a| && Covers(a[i], x);
    var j :| 0 <= j < |b| && Covers(b[j], x);
    assert c[i] == a[i] && c[|a| + j] == b[j];
    assert !Apart(c[i], c[|a| + j]);
  }

  lemma JoinExact(a: seq<Span>, b: seq<Span>)
    requires Canonical(a) && Canonical(b)
    ensures Nonempty(a + b)
    ensures Normal(a + b).Some? <==> Separate(a, b)
    ensures Normal(a + b).Some? ==>
              && Canonical(Normal(a + b).value)
              && forall x: nat :: In(x, Normal(a + b).value) <==> In(x, a) || In(x, b)
  {
    var c := a + b;
    NormalExact(c);
    forall x: nat
      ensures In(x, c) <==> In(x, a) || In(x, b)
    {
      InAppend(x, a, b);
    }
    forall x: nat | In(x, a) && In(x, b)
      ensures !PairwiseApart(c)
    {
      CommonPointOverlaps(a, b, x);
    }
    if Separate(a, b) {
      forall i, j | 0 <= i < j < |c|
        ensures Apart(c[i], c[j])
      {
        if i < |a| && |a| <= j {
          SeparateApart(a, b, i, j - |a|);
        }
      }
    }
  }

  lemma JoinCommutes(a: seq<Span>, b: seq<Span>)
    requires Canonical(a) && Canonical(b)
    ensures Normal(a + b) == Normal(b + a)
  {
    JoinExact(a, b);
    JoinExact(b, a);
    if Separate(a, b) {
      assert Separate(b, a);
      CanonicalUnique(Normal(a + b).value, Normal(b + a).value);
    } else {
      assert !Separate(b, a);
    }
  }

  // Composition through an invalid element is invalid.
  function JoinOpt(a: Option<seq<Span>>, b: Option<seq<Span>>): Option<seq<Span>> {
    if a.None? || b.None? then None else Normal(a.value + b.value)
  }

  lemma JoinAssociates(a: seq<Span>, b: seq<Span>, c: seq<Span>)
    requires Canonical(a) && Canonical(b) && Canonical(c)
    ensures JoinOpt(Normal(a + b), Some(c)) == JoinOpt(Some(a), Normal(b + c))
  {
    JoinExact(a, b);
    JoinExact(b, c);
    if Normal(a + b).Some? { JoinExact(Normal(a + b).value, c); }
    if Normal(b + c).Some? { JoinExact(a, Normal(b + c).value); }
    var l, r := JoinOpt(Normal(a + b), Some(c)), JoinOpt(Some(a), Normal(b + c));
    assert l.Some? <==> Separate(a, b) && Separate(a, c) && Separate(b, c);
    assert r.Some? <==> Separate(a, b) && Separate(a, c) && Separate(b, c);
    if l.Some? {
      CanonicalUnique(l.value, r.value);
    }
  }

  // ----- coverage -----

  predicate CoveredBy(a: seq<Span>, b: seq<Span>) {
    forall i :: 0 <= i < |a| ==> exists j :: 0 <= j < |b| && b[j].lo <= a[i].lo && a[i].hi <= b[j].hi
  }

  lemma GapAfter(b: seq<Span>, j: nat)
    requires Canonical(b) && j < |b|
    ensures !In(b[j].hi, b)
  {
    assert forall k :: 0 <= k < |b| ==> !Covers(b[k], b[j].hi);
  }

  // The span-wise test decides inclusion of point sets.
  lemma CoverageExact(a: seq<Span>, b: seq<Span>)
    requires Canonical(a) && Canonical(b)
    ensures CoveredBy(a, b) <==> forall x: nat :: In(x, a) ==> In(x, b)
  {
    if CoveredBy(a, b) {
      forall x: nat | In(x, a)
        ensures In(x, b)
      {
        var i :| 0 <= i < |a| && Covers(a[i], x);
        var j :| 0 <= j < |b| && b[j].lo <= a[i].lo && a[i].hi <= b[j].hi;
        assert Covers(b[j], x);
      }
    }
    if forall x: nat :: In(x, a) ==> In(x, b) {
      forall i | 0 <= i < |a|
        ensures exists j :: 0 <= j < |b| && b[j].lo <= a[i].lo && a[i].hi <= b[j].hi
      {
        assert Covers(a[i], a[i].lo);
        assert In(a[i].lo, a);
        var j :| 0 <= j < |b| && Covers(b[j], a[i].lo);
        GapAfter(b, j);
        assert !In(b[j].hi, a);
        assert !Covers(a[i], b[j].hi);
      }
    }
  }

  // The canonical list of a set of points, restricted to points below `n`.
  ghost function Collect(points: iset<nat>, n: nat): (r: seq<Span>) {
    if n == 0 then []
    else
      var r, m := Collect(points, n - 1), n - 1;
      if m !in points then r
      else if r != [] && r[|r| - 1].hi == m then r[..|r| - 1] + [Span(r[|r| - 1].lo, n)]
      else r + [Span(m, n)]
  }

  ghost predicate Collected(r: seq<Span>, points: iset<nat>, n: nat) {
    && Canonical(r)
    && (forall i :: 0 <= i < |r| ==> r[i].hi <= n)
    && (forall x: nat :: In(x, r) <==> x < n && x in points)
  }

  lemma {:induction false} CollectFacts(points: iset<nat>, n: nat)
    ensures Collected(Collect(points, n), points, n)
  {
    if n != 0 {
      CollectFacts(points, n - 1);
      CollectStep(Collect(points, n - 1), points, n - 1);
    } else {
      assert Collect(points, n) == [];
    }
  }

  lemma CollectStep(r: seq<Span>, points: iset<nat>, m: nat)
    requires Collected(r, points, m)
    ensures m !in points ==> Collected(r, points, m + 1)
    ensures m in points && r != [] && r[|r| - 1].hi == m ==>
              Collected(r[..|r| - 1] + [Span(r[|r| - 1].lo, m + 1)], points, m + 1)
    ensures m in points && !(r != [] && r[|r| - 1].hi == m) ==> Collected(r + [Span(m, m + 1)], points, m + 1)
  {
    if r != [] && r[|r| - 1].hi == m {
      CollectExtend(r, m, Span(r[|r| - 1].lo, m + 1));
    } else {
      CollectAppend(r, m);
    }
  }

  lemma CollectAppend(r: seq<Span>, m: nat)
    ensures forall x: nat :: In(x, r + [Span(m, m + 1)]) <==> In(x, r) || x == m
  {
    forall x: nat
      ensures In(x, r + [Span(m, m + 1)]) <==> In(x, r) || x == m
    {
      InAppend(x, r, [Span(m, m + 1)]);
      assert [Span(m, m + 1)][0] == Span(m, m + 1);
    }
  }

  lemma CollectExtend(r: seq<Span>, m: nat, grown: Span)
    requires r != [] && r[|r| - 1].hi == m && grown == Span(r[|r| - 1].lo, m + 1)
    requires r[|r| - 1].lo < m
    ensures forall x: nat :: In(x, r[..|r| - 1] + [grown]) <==> In(x, r) || x == m
  {
    var front, last := r[..|r| - 1], r[|r| - 1];
    assert r == front + [last];
    forall x: nat
      ensures In(x, front + [grown]) <==> In(x, r) || x == m
    {
      InAppend(x, front, [grown]);
      InAppend(x, front, [last]);
      assert [grown][0] == grown && [last][0] == last;
    }
  }

  lemma BoundedPoints(b: seq<Span>)
    requires Canonical(b)
    ensures forall x: nat :: In(x, b) ==> b != [] && x < b[|b| - 1].hi
  {
    forall x: nat | In(x, b)
      ensures b != [] && x < b[|b| - 1].hi
    {
      var i :| 0 <= i < |b| && Covers(b[i], x);
    }
  }

  // Coverage is algebraic inclusion: b = a · c for some canonical c.
  lemma CoverageHasComplement(a: seq<Span>, b: seq<Span>) returns (c: seq<Span>)
    requires Canonical(a) && Canonical(b) && CoveredBy(a, b)
    ensures Canonical(c) && Normal(a + c) == Some(b)
    ensures forall i :: 0 <= i < |c| ==> b != [] && c[i].hi <= b[|b| - 1].hi
  {
    var rest := iset x: nat | In(x, b) && !In(x, a);
    c := Collect(rest, if b == [] then 0 else b[|b| - 1].hi);
    CoverageExact(a, b);
    BoundedPoints(b);
    CollectFacts(rest, if b == [] then 0 else b[|b| - 1].hi);
    JoinExact(a, c);
    CanonicalUnique(Normal(a + c).value, b);
  }
}
