/** Facts about sequences used to state the order and uniqueness of keys. */
module Sequences {

  /** No element occurs twice in `xs`. */
  ghost predicate Distinct<T>(xs: seq<T>)
  {
    forall i, j :: 0 <= i < j < |xs| ==> xs[i] != xs[j]
  }

  lemma DistinctCons<T>(x: T, xs: seq<T>)
    ensures Distinct([x] + xs) <==> x !in xs && Distinct(xs)
  {
    var s := [x] + xs;
    if x !in xs && Distinct(xs) {
      forall i, j | 0 <= i < j < |s| ensures s[i] != s[j] {
        if i == 0 {
          assert s[j] == xs[j - 1];
        } else {
          assert s[i] == xs[i - 1] && s[j] == xs[j - 1];
        }
      }
    }
    if Distinct(s) {
      forall k | 0 <= k < |xs| ensures xs[k] != x {
        assert s[0] == x && s[k + 1] == xs[k];
      }
      forall i, j | 0 <= i < j < |xs| ensures xs[i] != xs[j] {
        assert s[i + 1] == xs[i] && s[j + 1] == xs[j];
      }
    }
  }

  /** `xs` can be obtained from `ys` by deleting elements: every element of
      `xs` occurs in `ys`, in the same relative order. */
  ghost predicate Subsequence<T>(xs: seq<T>, ys: seq<T>)
    decreases |ys|
  {
    xs == [] ||
    (ys != [] &&
     ((xs[0] == ys[0] && Subsequence(xs[1..], ys[1..])) || Subsequence(xs, ys[1..])))
  }

  /** A subsequence of `ys` stays one when more elements are put in front of `ys`. */
  lemma {:induction false} SubsequenceExtend<T>(xs: seq<T>, front: seq<T>, ys: seq<T>)
    requires Subsequence(xs, ys)
    ensures Subsequence(xs, front + ys)
    decreases |front|
  {
    if front == [] {
      assert front + ys == ys;
    } else if xs != [] {
      SubsequenceExtend(xs, front[1..], ys);
      assert (front + ys)[1..] == front[1..] + ys;
      assert front + ys != [];
    }
  }

  /** Subsequences of consecutive pieces join into a subsequence of the joined pieces. */
  lemma {:induction false} SubsequenceConcat<T>(xs1: seq<T>, ys1: seq<T>, xs2: seq<T>, ys2: seq<T>)
    requires Subsequence(xs1, ys1) && Subsequence(xs2, ys2)
    ensures Subsequence(xs1 + xs2, ys1 + ys2)
    decreases |ys1|
  {
    if xs1 == [] {
      assert xs1 + xs2 == xs2;
      SubsequenceExtend(xs2, ys1, ys2);
    } else {
      assert (ys1 + ys2)[1..] == ys1[1..] + ys2;
      if xs1[0] == ys1[0] && Subsequence(xs1[1..], ys1[1..]) {
        SubsequenceConcat(xs1[1..], ys1[1..], xs2, ys2);
        assert (xs1 + xs2)[1..] == xs1[1..] + xs2;
      } else {
        SubsequenceConcat(xs1, ys1[1..], xs2, ys2);
      }
    }
  }

  /** Every element of a subsequence occurs in the larger sequence. */
  lemma {:induction false} SubsequenceMembers<T>(xs: seq<T>, ys: seq<T>)
    requires Subsequence(xs, ys)
    ensures forall x :: x in xs ==> x in ys
    decreases |ys|
  {
    if xs != [] {
      if xs[0] == ys[0] && Subsequence(xs[1..], ys[1..]) {
        SubsequenceMembers(xs[1..], ys[1..]);
        assert xs == [xs[0]] + xs[1..];
        assert ys == [ys[0]] + ys[1..];
      } else {
        SubsequenceMembers(xs, ys[1..]);
        assert ys == [ys[0]] + ys[1..];
      }
    }
  }

  /** A subsequence of a sequence without repetitions has none either. */
  lemma {:induction false} SubsequenceDistinct<T>(xs: seq<T>, ys: seq<T>)
    requires Subsequence(xs, ys) && Distinct(ys)
    ensures Distinct(xs)
    decreases |ys|
  {
    if xs != [] {
      assert ys == [ys[0]] + ys[1..];
      DistinctCons(ys[0], ys[1..]);
      if xs[0] == ys[0] && Subsequence(xs[1..], ys[1..]) {
        SubsequenceDistinct(xs[1..], ys[1..]);
        SubsequenceMembers(xs[1..], ys[1..]);
        assert xs == [xs[0]] + xs[1..];
        DistinctCons(xs[0], xs[1..]);
      } else {
        SubsequenceDistinct(xs, ys[1..]);
      }
    }
  }
}
