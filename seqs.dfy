/** Generic facts about sequences, and the two list-comprehension shapes the
    scripts use: a map and a filter-and-project. */
module Seqs {

  lemma AppendAssoc<T>(x: seq<T>, y: seq<T>, z: seq<T>)
    ensures x + y + z == x + (y + z)
  {
  }

  lemma SplitConcat<T>(x: seq<T>, y: seq<T>)
    ensures (x + y)[..|x|] == x && (x + y)[|x|..] == y
  {
  }

  lemma SuffixAt<T>(s: seq<T>, a: nat, k: nat)
    requires a <= k < |s|
    ensures s[a..][k - a] == s[k]
  {
  }

  lemma SliceOfSuffix<T>(s: seq<T>, a: nat, n: nat)
    requires a + n <= |s|
    ensures s[a..][..n] == s[a..a + n]
  {
  }

  /** Moving element `j` of `pending` to the end of `done` keeps the
      combined multiset. */
  lemma MovePicked<T>(done: seq<T>, pending: seq<T>, j: nat)
    requires j < |pending|
    ensures multiset(done + [pending[j]]) + multiset(pending[..j] + pending[j + 1..])
         == multiset(done) + multiset(pending)
  {
    RemoveAt(pending, j);
  }

  lemma Decompose<T>(s: seq<T>, j: nat)
    requires j < |s|
    ensures s == s[..j] + [s[j]] + s[j + 1..]
  {
  }

  lemma MultisetConcat3<T>(a: seq<T>, b: seq<T>, c: seq<T>)
    ensures multiset(a + b + c) == multiset(a) + multiset(b) + multiset(c)
  {
  }

  /** Extending an accumulator split as `x` and `y` by `d` and `z` extends
      the two parts by them. */
  lemma MultisetShuffle<T>(acc: seq<T>, x: seq<T>, y: seq<T>, d: seq<T>, z: seq<T>)
    requires multiset(acc) == multiset(x) + multiset(y)
    ensures multiset(acc + d + z) == multiset(x + d) + multiset(y + z)
  {
  }

  /** An accumulator holding `d` and the part `a` of `all`, extended by the
      rest `b` of `all`, holds `d` and `all`. */
  lemma Regroup<T>(acc: seq<T>, d: seq<T>, a: seq<T>, b: seq<T>, all: seq<T>)
    requires multiset(acc) == multiset(d) + multiset(a)
    requires multiset(a + b) == multiset(all)
    ensures multiset(acc + b) == multiset(d) + multiset(all)
  {
  }

  /** Moving `stepRan` from the pending part `pending` (extended by `t`) to
      the finished part `ran` keeps the whole `before + t`. */
  lemma Advance<T>(ran: seq<T>, pending: seq<T>, stepRan: seq<T>, pending': seq<T>, before: seq<T>, t: seq<T>)
    requires multiset(ran) + multiset(pending) == multiset(before)
    requires multiset(stepRan) + multiset(pending') == multiset(pending) + multiset(t)
    ensures multiset(ran + stepRan) + multiset(pending') == multiset(before + t)
  {
    calc {
      multiset(ran + stepRan) + multiset(pending');
      multiset(ran) + (multiset(stepRan) + multiset(pending'));
      multiset(ran) + (multiset(pending) + multiset(t));
      (multiset(ran) + multiset(pending)) + multiset(t);
      multiset(before + t);
    }
  }

  /** When as many elements were taken as there were, none are left. */
  lemma NothingLeft<T>(taken: seq<T>, rest: seq<T>, all: seq<T>)
    requires multiset(taken) + multiset(rest) == multiset(all) && |taken| == |all|
    ensures multiset(taken) == multiset(all)
  {
    assert |multiset(taken)| + |multiset(rest)| == |multiset(all)|;
    assert |rest| == 0;
    assert rest == [];
  }

  lemma SameSize<T>(a: seq<T>, b: seq<T>)
    requires multiset(a) == multiset(b)
    ensures |a| == |b|
  {
    assert |multiset(a)| == |multiset(b)|;
  }

  lemma DropNone<T>(s: seq<T>)
    ensures s[0..] == s
  {
  }

  lemma DropDrop<T>(s: seq<T>, i: nat)
    requires 1 <= i <= |s|
    ensures s[1..][i - 1..] == s[i..]
  {
  }

  lemma TakeAll<T>(s: seq<T>)
    ensures s[..|s|] == s
  {
  }

  lemma TakeTake<T>(s: seq<T>, i: nat)
    requires i < |s|
    ensures s[..i + 1][..i] == s[..i] && s[..i + 1][i] == s[i]
  {
  }

  lemma LastSplit<T>(s: seq<T>)
    requires s != []
    ensures s == s[..|s| - 1] + [s[|s| - 1]]
  {
  }

  /** `[f(x) for x in s]`. */
  function Map<A, B>(s: seq<A>, f: A -> B): (r: seq<B>)
    ensures |r| == |s|
  {
    if s == [] then [] else Map(s[..|s| - 1], f) + [f(s[|s| - 1])]
  }

  lemma {:induction false} MapAppend<A, B>(a: seq<A>, b: seq<A>, f: A -> B)
    ensures Map(a + b, f) == Map(a, f) + Map(b, f)
    decreases |b|
  {
    if b == [] {
      assert a + b == a;
    } else {
      assert (a + b)[..|a + b| - 1] == a + b[..|b| - 1];
      MapAppend(a, b[..|b| - 1], f);
    }
  }

  lemma TakeSnoc<A>(s: seq<A>, i: nat)
    requires i < |s|
    ensures s[..i + 1] == s[..i] + [s[i]]
  {
  }

  /** Taking element `j` out of `s` takes `f(s[j])` out of the mapped multiset. */
  lemma {:induction false} MapRemove<A, B>(s: seq<A>, j: nat, f: A -> B)
    requires j < |s|
    ensures multiset(Map(s, f)) == multiset(Map(s[..j] + s[j + 1..], f)) + multiset{f(s[j])}
  {
    var p, x, q := s[..j], s[j], s[j + 1..];
    Decompose(s, j);
    MapAppend(p + [x], q, f);
    MapSnoc(p, x, f);
    MapAppend(p, q, f);
    MultisetConcat3(Map(p, f), [f(x)], Map(q, f));
  }

  lemma MapSnoc<A, B>(s: seq<A>, x: A, f: A -> B)
    ensures Map(s + [x], f) == Map(s, f) + [f(x)]
  {
    assert (s + [x])[..|s|] == s;
  }

  lemma RemoveAt<A>(s: seq<A>, j: nat)
    requires j < |s|
    ensures multiset(s) == multiset(s[..j] + s[j + 1..]) + multiset{s[j]}
  {
    assert s == s[..j] + [s[j]] + s[j + 1..];
  }

  /** Mapping is insensitive to order, up to multiset equality. */
  lemma {:induction false} MapPermutation<A, B>(a: seq<A>, b: seq<A>, f: A -> B)
    requires multiset(a) == multiset(b)
    ensures multiset(Map(a, f)) == multiset(Map(b, f))
    decreases |a|
  {
    if a == [] {
      assert |multiset(b)| == 0;
    } else {
      var init, x := a[..|a| - 1], a[|a| - 1];
      assert a == init + [x];
      assert x in multiset(b);
      var j :| 0 <= j < |b| && b[j] == x;
      var rest := b[..j] + b[j + 1..];
      RemoveAt(b, j);
      assert multiset(a) == multiset(init) + multiset{x};
      assert multiset(init) == multiset(a) - multiset{x};
      assert multiset(rest) == multiset(b) - multiset{x};
      MapPermutation(init, rest, f);
      MapSnoc(init, x, f);
      MapRemove(b, j, f);
    }
  }

  /** Concatenation of `f(x)` over `s`: a filter-and-project. */
  function Gather<A, T>(s: seq<A>, f: A -> seq<T>): seq<T>
  {
    if s == [] then [] else Gather(s[..|s| - 1], f) + f(s[|s| - 1])
  }

  lemma GatherSnoc<A, T>(s: seq<A>, x: A, f: A -> seq<T>)
    ensures Gather(s + [x], f) == Gather(s, f) + f(x)
  {
    assert (s + [x])[..|s|] == s;
  }

  /** `ok` holds of every position `j` and its pair `xs[j]`, `ys[j]`. */
  ghost predicate AllPairs<A, B>(xs: seq<A>, ys: seq<B>, ok: (nat, A, B) -> bool) {
    |xs| == |ys| && forall j :: 0 <= j < |xs| ==> ok(j, xs[j], ys[j])
  }

  lemma AllPairsSnoc<A, B>(xs: seq<A>, ys: seq<B>, ok: (nat, A, B) -> bool, x: A, y: B)
    requires AllPairs(xs, ys, ok) && ok(|xs|, x, y)
    ensures AllPairs(xs + [x], ys + [y], ok)
  {
    forall j | 0 <= j < |xs| + 1 ensures ok(j, (xs + [x])[j], (ys + [y])[j]) {
      if j < |xs| {
        assert (xs + [x])[j] == xs[j] && (ys + [y])[j] == ys[j];
      }
    }
  }

  /** The concatenation of the segments `ss`, in order. */
  function Flatten<T>(ss: seq<seq<T>>): (r: seq<T>)
  {
    if ss == [] then [] else Flatten(ss[..|ss| - 1]) + ss[|ss| - 1]
  }

  lemma FlattenSnoc<T>(ss: seq<seq<T>>, s: seq<T>)
    ensures Flatten(ss + [s]) == Flatten(ss) + s
  {
    assert (ss + [s])[..|ss|] == ss;
  }

  lemma GatherSingle<A, T>(x: A, f: A -> seq<T>)
    ensures Gather([x], f) == f(x)
  {
    assert [x][..0] == [];
  }

  lemma {:induction false} GatherAppend<A, T>(a: seq<A>, b: seq<A>, f: A -> seq<T>)
    ensures Gather(a + b, f) == Gather(a, f) + Gather(b, f)
    decreases |b|
  {
    if b == [] {
      assert a + b == a;
    } else {
      assert (a + b)[..|a + b| - 1] == a + b[..|b| - 1];
      GatherAppend(a, b[..|b| - 1], f);
    }
  }

  /** Taking element `j` out of `s` takes `f(s[j])` out of the gathered multiset. */
  lemma GatherRemove<A, T>(s: seq<A>, j: nat, f: A -> seq<T>)
    requires j < |s|
    ensures multiset(Gather(s, f)) == multiset(Gather(s[..j] + s[j + 1..], f)) + multiset(f(s[j]))
  {
    var p, x, q := s[..j], s[j], s[j + 1..];
    Decompose(s, j);
    GatherAppend(p + [x], q, f);
    GatherSnoc(p, x, f);
    GatherAppend(p, q, f);
    MultisetConcat3(Gather(p, f), f(x), Gather(q, f));
  }

  /** Gathering is insensitive to order, up to multiset equality. */
  lemma {:induction false} GatherPermutation<A, T>(a: seq<A>, b: seq<A>, f: A -> seq<T>)
    requires multiset(a) == multiset(b)
    ensures multiset(Gather(a, f)) == multiset(Gather(b, f))
    decreases |a|
  {
    if a == [] {
      assert |multiset(b)| == 0;
    } else {
      var init, x := a[..|a| - 1], a[|a| - 1];
      assert a == init + [x];
      assert x in multiset(b);
      var j :| 0 <= j < |b| && b[j] == x;
      var rest := b[..j] + b[j + 1..];
      RemoveAt(b, j);
      assert multiset(a) == multiset(init) + multiset{x};
      assert multiset(init) == multiset(a) - multiset{x};
      assert multiset(rest) == multiset(b) - multiset{x};
      GatherPermutation(init, rest, f);
      GatherSnoc(init, x, f);
      GatherRemove(b, j, f);
    }
  }

  lemma {:induction false} MapAt<A, B>(s: seq<A>, f: A -> B, k: nat)
    requires k < |s|
    ensures Map(s, f)[k] == f(s[k])
    decreases |s|
  {
    if k < |s| - 1 {
      MapAt(s[..|s| - 1], f, k);
    }
  }
}
