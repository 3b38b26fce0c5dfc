/** Filtering, prefixes and subsequences: the vocabulary in which histories are compared. */
module Sequences {

  /** The elements of `xs` that satisfy `f`, in order. */
  function Keep<T>(f: T -> bool, xs: seq<T>): seq<T> {
    if xs == [] then []
    else
      var k := |xs| - 1;
      Keep(f, xs[..k]) + (if f(xs[k]) then [xs[k]] else [])
  }

  lemma KeepAppend<T>(f: T -> bool, xs: seq<T>, x: T)
    ensures Keep(f, xs + [x]) == Keep(f, xs) + (if f(x) then [x] else [])
  {
    assert (xs + [x])[..|xs|] == xs;
  }

  lemma KeepSingle<T>(f: T -> bool, x: T)
    ensures Keep(f, [x]) == if f(x) then [x] else []
  {
    assert [x][..0] == [];
  }

  lemma {:induction false} KeepConcat<T>(f: T -> bool, xs: seq<T>, ys: seq<T>)
    ensures Keep(f, xs + ys) == Keep(f, xs) + Keep(f, ys)
  {
    if ys == [] {
      assert xs + ys == xs;
    } else {
      var k := |ys| - 1;
      KeepConcat(f, xs, ys[..k]);
      assert xs + ys == (xs + ys[..k]) + [ys[k]];
      KeepAppend(f, xs + ys[..k], ys[k]);
    }
  }

  /** `Keep` holds exactly the satisfying elements. */
  lemma {:induction false} KeepMembers<T>(f: T -> bool, xs: seq<T>)
    ensures forall x :: x in Keep(f, xs) <==> x in xs && f(x)
  {
    if xs != [] {
      var k := |xs| - 1;
      KeepMembers(f, xs[..k]);
      assert xs == xs[..k] + [xs[k]];
    }
  }

  lemma KeepPrefix<T>(f: T -> bool, xs: seq<T>, ys: seq<T>)
    requires xs <= ys
    ensures Keep(f, xs) <= Keep(f, ys)
  {
    assert ys == xs + ys[|xs|..];
    KeepConcat(f, xs, ys[|xs|..]);
  }

  /** Filtering by a stronger test forgets that a weaker one was applied first. */
  lemma {:induction false} KeepRefine<T(!new)>(f: T -> bool, g: T -> bool, xs: seq<T>)
    requires forall x :: f(x) ==> g(x)
    ensures Keep(f, Keep(g, xs)) == Keep(f, xs)
  {
    if xs != [] {
      var k := |xs| - 1;
      KeepRefine(f, g, xs[..k]);
      if g(xs[k]) {
        KeepAppend(f, Keep(g, xs[..k]), xs[k]);
      } else {
        assert Keep(g, xs) == Keep(g, xs[..k]) && Keep(f, xs) == Keep(f, xs[..k]);
      }
    }
  }

  lemma {:induction false} KeepAll<T>(f: T -> bool, xs: seq<T>)
    requires forall x <- xs :: f(x)
    ensures Keep(f, xs) == xs
  {
    if xs != [] {
      KeepAll(f, xs[..|xs| - 1]);
    }
  }

  lemma {:induction false} KeepNone<T>(f: T -> bool, xs: seq<T>)
    requires forall x <- xs :: !f(x)
    ensures Keep(f, xs) == []
  {
    if xs != [] {
      KeepNone(f, xs[..|xs| - 1]);
    }
  }

  /** A nonempty sequence as its front and its last element. */
  lemma FrontLast<T>(xs: seq<T>)
    requires xs != []
    ensures xs == xs[..|xs| - 1] + [xs[|xs| - 1]]
    ensures forall x :: x in xs <==> x in xs[..|xs| - 1] || x == xs[|xs| - 1]
  {
    assert xs == xs[..|xs| - 1] + [xs[|xs| - 1]];
  }

  /** Where a satisfying element of `xs` lands in `Keep(f, xs)`. */
  lemma KeepAt<T>(f: T -> bool, xs: seq<T>, k: nat)
    requires k < |xs| && f(xs[k])
    ensures Keep(f, xs) == Keep(f, xs[..k]) + [xs[k]] + Keep(f, xs[k + 1..])
  {
    assert xs == (xs[..k] + [xs[k]]) + xs[k + 1..];
    KeepConcat(f, xs[..k] + [xs[k]], xs[k + 1..]);
    KeepAppend(f, xs[..k], xs[k]);
  }

  /** `a` is obtained from `b` by deleting elements. */
  predicate Subsequence<T(==)>(a: seq<T>, b: seq<T>) {
    if a == [] then true
    else if b == [] then false
    else
      var i, j := |a| - 1, |b| - 1;
      (a[i] == b[j] && Subsequence(a[..i], b[..j])) || Subsequence(a, b[..j])
  }

  lemma SubsequenceSkip<T>(a: seq<T>, b: seq<T>, x: T)
    requires Subsequence(a, b)
    ensures Subsequence(a, b + [x])
  {
    assert (b + [x])[..|b|] == b;
  }

  lemma SubsequenceMatch<T>(a: seq<T>, b: seq<T>, x: T)
    requires Subsequence(a, b)
    ensures Subsequence(a + [x], b + [x])
  {
    assert (a + [x])[..|a|] == a;
    assert (b + [x])[..|b|] == b;
  }

  lemma {:induction false} SubsequenceReflexive<T>(a: seq<T>)
    ensures Subsequence(a, a)
  {
    if a != [] {
      SubsequenceReflexive(a[..|a| - 1]);
    }
  }

  /** A prefix of a subsequence is a subsequence. */
  lemma {:induction false} SubsequencePrefix<T>(a: seq<T>, a': seq<T>, b: seq<T>)
    requires a <= a' && Subsequence(a', b)
    ensures Subsequence(a, b)
    decreases |b|
  {
    if a == [] || a' == a {
      assert a == a' || a == [];
    } else {
      var i, j := |a'| - 1, |b| - 1;
      if a'[i] == b[j] && Subsequence(a'[..i], b[..j]) {
        assert a <= a'[..i];
        SubsequencePrefix(a, a'[..i], b[..j]);
      } else {
        SubsequencePrefix(a, a', b[..j]);
      }
    }
  }

  /** Filtering both sides keeps the subsequence relation. */
  lemma {:induction false} SubsequenceKeep<T>(f: T -> bool, a: seq<T>, b: seq<T>)
    requires Subsequence(a, b)
    ensures Subsequence(Keep(f, a), Keep(f, b))
    decreases |b|
  {
    if a != [] {
      var i, j := |a| - 1, |b| - 1;
      if a[i] == b[j] && Subsequence(a[..i], b[..j]) {
        SubsequenceKeep(f, a[..i], b[..j]);
        if f(b[j]) {
          SubsequenceMatch(Keep(f, a[..i]), Keep(f, b[..j]), b[j]);
        } else {
          assert Keep(f, a) == Keep(f, a[..i]) && Keep(f, b) == Keep(f, b[..j]);
        }
      } else {
        SubsequenceKeep(f, a, b[..j]);
        if f(b[j]) {
          SubsequenceSkip(Keep(f, a), Keep(f, b[..j]), b[j]);
        } else {
          assert Keep(f, b) == Keep(f, b[..j]);
        }
      }
    }
  }
}
