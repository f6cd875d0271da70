/** `[...xs].sort(() => Math.random() - 0.5)`: a copy of a sequence put in
    some order the random comparator picks. The model says only what such a
    sort can promise, that the result is a permutation of the input; the
    random answers are replaced by caller-supplied `choices`. */
module Shuffle {

  /** The position swapped into place `i` at step `i`: any earlier or equal
      position, as chosen by `choices` (no choice left keeps `i` in place). */
  function Pick(choices: seq<nat>, i: nat): (j: nat)
    ensures j <= i
  {
    if i < |choices| then choices[i] % (i + 1) else i
  }

  /** Copies `s` into a fresh array and reorders the copy in place. */
  method ShuffledCopy<T(==)>(s: seq<T>, choices: seq<nat>) returns (r: seq<T>)
    ensures |r| == |s|
    ensures multiset(r) == multiset(s)
  {
    var a := new T[|s|](k requires 0 <= k < |s| => s[k]);
    assert a[..] == s;
    var i := 0;
    while i < a.Length
      invariant 0 <= i <= a.Length
      invariant multiset(a[..]) == multiset(s)
    {
      var j := Pick(choices, i);
      a[i], a[j] := a[j], a[i];
      i := i + 1;
    }
    r := a[..];
  }

  /** `xs.map(f)`. */
  function Map<A, B>(f: A -> B, xs: seq<A>): (ys: seq<B>)
    ensures |ys| == |xs|
    ensures forall i :: 0 <= i < |xs| ==> ys[i] == f(xs[i])
  {
    seq(|xs|, i requires 0 <= i < |xs| => f(xs[i]))
  }

  /** Removing position `j` takes exactly one `b[j]` out of the multiset. */
  lemma RemoveAt<A>(b: seq<A>, j: nat)
    requires j < |b|
    ensures multiset(b) == multiset(b[..j] + b[j + 1..]) + multiset{b[j]}
  {
    assert b == b[..j] + [b[j]] + b[j + 1..];
  }

  /** Mapping after removing position `j` removes exactly one `f(b[j])`. */
  lemma MapRemoveAt<A, B>(f: A -> B, b: seq<A>, j: nat)
    requires j < |b|
    ensures multiset(Map(f, b)) == multiset(Map(f, b[..j] + b[j + 1..])) + multiset{f(b[j])}
  {
    var m := Map(f, b);
    assert Map(f, b[..j] + b[j + 1..]) == m[..j] + m[j + 1..];
    RemoveAt(m, j);
  }

  /** Mapping keeps sub-multisets: whatever `a` takes from `b` (counting
      repetitions), `f` applied to `a` takes from `f` applied to `b`. */
  lemma {:induction false} SubMultisetMap<A, B>(f: A -> B, a: seq<A>, b: seq<A>)
    requires multiset(a) <= multiset(b)
    ensures multiset(Map(f, a)) <= multiset(Map(f, b))
    decreases |a|
  {
    if a != [] {
      var x := a[0];
      assert x in multiset(a);
      var j :| 0 <= j < |b| && b[j] == x;
      var b' := b[..j] + b[j + 1..];
      RemoveAt(b, j);
      assert multiset(a) == multiset{x} + multiset(a[1..]) by {
        assert a == [x] + a[1..];
      }
      assert multiset(a[1..]) <= multiset(b') by {
        forall y ensures multiset(a[1..])[y] <= multiset(b')[y] {
          assert multiset(a)[y] <= multiset(b)[y];
        }
      }
      SubMultisetMap(f, a[1..], b');
      MapRemoveAt(f, b, j);
      assert Map(f, a) == [f(x)] + Map(f, a[1..]);
    }
  }

  /** No two positions of `xs` hold the same value. */
  ghost predicate Distinct<T>(xs: seq<T>) {
    forall i, j :: 0 <= i < j < |xs| ==> xs[i] != xs[j]
  }

  /** Pairwise distinctness is the same as every value occurring at most once. */
  lemma {:induction false} DistinctIffSingleCounts<T>(xs: seq<T>)
    ensures Distinct(xs) <==> forall x :: multiset(xs)[x] <= 1
  {
    if xs != [] {
      var h, t := xs[0], xs[1..];
      assert xs == [h] + t;
      DistinctIffSingleCounts(t);
      assert multiset(xs) == multiset{h} + multiset(t);
      if Distinct(xs) {
        assert Distinct(t) by {
          forall i, j | 0 <= i < j < |t| ensures t[i] != t[j] {
            assert t[i] == xs[i + 1] && t[j] == xs[j + 1];
          }
        }
        assert h !in t by {
          forall k | 0 <= k < |t| ensures t[k] != h {
            assert t[k] == xs[k + 1];
          }
        }
        assert multiset(t)[h] == 0;
      }
      if forall x :: multiset(xs)[x] <= 1 {
        assert forall x :: multiset(t)[x] <= 1 by {
          forall x ensures multiset(t)[x] <= 1 {
            assert multiset(xs)[x] <= 1;
          }
        }
        assert multiset(xs)[h] <= 1;
        assert h !in multiset(t);
        forall i, j | 0 <= i < j < |xs| ensures xs[i] != xs[j] {
          if i == 0 {
            assert xs[j] == t[j - 1];
            assert xs[j] in multiset(t);
          } else {
            assert xs[i] == t[i - 1] && xs[j] == t[j - 1];
          }
        }
      }
    }
  }

  /** A sequence that takes no value more often than a distinct one is distinct. */
  lemma SubMultisetOfDistinct<T>(a: seq<T>, b: seq<T>)
    requires multiset(a) <= multiset(b)
    requires Distinct(b)
    ensures Distinct(a)
  {
    DistinctIffSingleCounts(b);
    DistinctIffSingleCounts(a);
    assert forall x :: multiset(a)[x] <= multiset(b)[x];
  }
}
