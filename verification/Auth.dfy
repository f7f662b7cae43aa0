// Capacity validity of all outstanding fragments of one pool.

module Auth {
  import opened Prelude
  import opened Algebra

  predicate Uniform(tag: AlgebraTag, fs: seq<Frag>) {
    forall i :: 0 <= i < |fs| ==> fs[i].Tag() == tag
  }

  // Left fold of the composition; None on an algebra mismatch.
  function Fold(fs: seq<Frag>): Option<Frag>
    requires fs != []
  {
    if |fs| == 1 then Some(fs[0])
    else
      match Fold(fs[..|fs| - 1])
      case None => None
      case Some(acc) => acc.Op(fs[|fs| - 1])
  }

  lemma {:induction false} FoldTag(fs: seq<Frag>)
    requires fs != []
    ensures Fold(fs).Some? <==> Uniform(fs[0].Tag(), fs)
    ensures Fold(fs).Some? ==> Fold(fs).value.Tag() == fs[0].Tag()
  {
    if |fs| > 1 {
      FoldTag(fs[..|fs| - 1]);
      assert fs == fs[..|fs| - 1] + [fs[|fs| - 1]];
    }
  }

  // The composition of fragments of one algebra; None is the unit (no claims at all).
  function Compose(tag: AlgebraTag, fs: seq<Frag>): (r: Option<Frag>)
    requires Uniform(tag, fs)
    ensures r.None? <==> fs == []
    ensures r.Some? ==> r.value.Tag() == tag
  {
    if fs == [] then None else FoldTag(fs); Fold(fs)
  }

  // Composition in Option<A>: None is the unit.
  predicate Compatible(a: Option<Frag>, b: Option<Frag>) {
    a.Some? && b.Some? ==> a.value.Tag() == b.value.Tag()
  }

  function OptDot(a: Option<Frag>, b: Option<Frag>): Option<Frag>
    requires Compatible(a, b)
  {
    if a.None? then b else if b.None? then a else Some(Dot(a.value, b.value))
  }

  lemma ComposeSnoc(tag: AlgebraTag, fs: seq<Frag>, f: Frag)
    requires Uniform(tag, fs) && f.Tag() == tag
    ensures Uniform(tag, fs + [f])
    ensures Compose(tag, fs + [f]) == OptDot(Compose(tag, fs), Some(f))
  {
    if fs != [] {
      assert (fs + [f])[..|fs + [f]| - 1] == fs;
      FoldTag(fs);
    }
  }

  function Without<T>(s: seq<T>, i: nat): (r: seq<T>)
    requires i < |s|
    ensures |r| == |s| - 1
    ensures multiset(r) == multiset(s) - multiset{s[i]}
  {
    assert s == s[..i] + [s[i]] + s[i + 1..];
    s[..i] + s[i + 1..]
  }

  lemma UniformWithout(tag: AlgebraTag, fs: seq<Frag>, i: nat)
    requires Uniform(tag, fs) && i < |fs|
    ensures Uniform(tag, Without(fs, i))
  {
  }

  // Any fragment can be moved to the end of the composition.
  lemma {:induction false} ComposeExtract(tag: AlgebraTag, fs: seq<Frag>, i: nat)
    requires Uniform(tag, fs) && i < |fs|
    ensures Uniform(tag, Without(fs, i))
    ensures Compose(tag, fs) == OptDot(Compose(tag, Without(fs, i)), Some(fs[i]))
    decreases |fs|
  {
    UniformWithout(tag, fs, i);
    var n := |fs| - 1;
    var front, last := fs[..n], fs[n];
    assert fs == front + [last];
    ComposeSnoc(tag, front, last);
    if i < n {
      ComposeExtract(tag, front, i);
      var rest := Without(front, i);
      assert Without(fs, i) == rest + [last];
      ComposeSnoc(tag, rest, last);
      var c := Compose(tag, rest);
      if c.None? {
        DotCommutes(front[i], last);
      } else {
        DotAssociates(c.value, front[i], last);
        DotCommutes(front[i], last);
        DotAssociates(c.value, last, front[i]);
      }
    } else {
      assert Without(fs, i) == front;
    }
  }

  // The composition depends only on the multiset of fragments.
  lemma {:induction false} ComposePermutation(tag: AlgebraTag, a: seq<Frag>, b: seq<Frag>)
    requires Uniform(tag, a) && multiset(a) == multiset(b)
    ensures Uniform(tag, b)
    ensures Compose(tag, a) == Compose(tag, b)
    decreases |a|
  {
    forall i | 0 <= i < |b|
      ensures b[i].Tag() == tag
    {
      assert b[i] in multiset(a);
    }
    if a == [] {
      assert |multiset(b)| == 0;
      assert b == [];
    } else {
      var n := |a| - 1;
      var front, last := a[..n], a[n];
      assert a == front + [last];
      ComposeSnoc(tag, front, last);
      assert last in multiset(b);
      var i :| 0 <= i < |b| && b[i] == last;
      ComposeExtract(tag, b, i);
      assert multiset(a) == multiset(front) + multiset{last};
      ComposePermutation(tag, front, Without(b, i));
    }
  }

  // Valid, outstanding and included in the capacity.
  predicate AuthValid(capacity: Frag, outstanding: Option<Frag>) {
    match outstanding
    case None => capacity.Valid()
    case Some(o) => o.Tag() == capacity.Tag() && capacity.Valid() && o.Valid() && Within(o, capacity)
  }

  predicate Fits(capacity: Frag, fs: seq<Frag>) {
    && Uniform(capacity.Tag(), fs)
    && AuthValid(capacity, Compose(capacity.Tag(), fs))
  }

  lemma FitsPermutation(capacity: Frag, a: seq<Frag>, b: seq<Frag>)
    requires multiset(a) == multiset(b)
    ensures Fits(capacity, a) <==> Fits(capacity, b)
  {
    if Uniform(capacity.Tag(), a) { ComposePermutation(capacity.Tag(), a, b); }
    if Uniform(capacity.Tag(), b) { ComposePermutation(capacity.Tag(), b, a); }
  }

  // Removing any fragment keeps the pool valid and within capacity.
  lemma FitsWithout(capacity: Frag, fs: seq<Frag>, i: nat)
    requires i < |fs| && Fits(capacity, fs)
    ensures Fits(capacity, Without(fs, i))
  {
    var tag := capacity.Tag();
    ComposeExtract(tag, fs, i);
    var rest := Compose(tag, Without(fs, i));
    if rest.Some? {
      var whole := Dot(rest.value, fs[i]);
      DotValidLeft(rest.value, fs[i]);
      WithinDot(rest.value, fs[i]);
      WithinTransitive(rest.value, whole, capacity);
    }
  }

  // Any sub-multiset of the outstanding fragments fits.
  lemma {:induction false} FitsSubset(capacity: Frag, all: seq<Frag>, part: seq<Frag>)
    requires Fits(capacity, all) && multiset(part) <= multiset(all)
    ensures Fits(capacity, part)
    decreases |all|
  {
    if multiset(part) == multiset(all) {
      FitsPermutation(capacity, all, part);
    } else {
      var extra := multiset(all) - multiset(part);
      assert multiset(all) == multiset(part) + extra;
      assert multiset(part) + multiset{} == multiset(part);
      assert extra != multiset{};
      var f :| f in extra;
      assert f in multiset(all);
      var i :| 0 <= i < |all| && all[i] == f;
      FitsWithout(capacity, all, i);
      FitsSubset(capacity, Without(all, i), part);
    }
  }

  // The issuer gate: the full new composition must fit.
  predicate CanMint(capacity: Frag, live: seq<Frag>, want: Frag)
    requires Uniform(capacity.Tag(), live + [want])
  {
    AuthValid(capacity, Compose(capacity.Tag(), live + [want]))
  }

  // ----- counted pools: the gate is exact arithmetic despite u64 overflow -----

  function Counts(ns: seq<U64>): (r: seq<Frag>)
    ensures |r| == |ns| && Uniform(Counted, r)
  {
    if ns == [] then [] else Counts(ns[..|ns| - 1]) + [CountFrag(Value(ns[|ns| - 1]))]
  }

  function Sum(ns: seq<nat>): nat {
    if ns == [] then 0 else Sum(ns[..|ns| - 1]) + ns[|ns| - 1]
  }

  lemma {:induction false} ComposeCounts(ns: seq<U64>)
    requires ns != []
    ensures Compose(Counted, Counts(ns)) ==
            Some(CountFrag(if Sum(ns) <= U64_MAX then Value(Sum(ns)) else Invalid))
  {
    var n := |ns| - 1;
    ComposeSnoc(Counted, Counts(ns[..n]), CountFrag(Value(ns[n])));
    if n == 0 {
      assert ns[..n] == [];
      assert Sum(ns) == ns[0];
    } else {
      ComposeCounts(ns[..n]);
    }
  }

  lemma CountMintExact(capacity: U64, live: seq<U64>, want: U64)
    ensures Uniform(Counted, Counts(live) + [CountFrag(Value(want))])
    ensures CanMint(CountFrag(Value(capacity)), Counts(live), CountFrag(Value(want)))
       <==> Sum(live) + want <= capacity
  {
    var ns := live + [want];
    assert ns[..|ns| - 1] == live;
    assert Counts(ns) == Counts(live) + [CountFrag(Value(want))];
    ComposeCounts(ns);
  }
}
