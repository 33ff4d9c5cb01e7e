/** Generic facts about finite sequences: distinctness, subsequences, filtering,
    mapping and first-occurrence search. */
module Seqs {
  import opened Wrappers

  /** No element occurs twice. */
  predicate NoDup<T(==)>(s: seq<T>) {
    forall i, j :: 0 <= i < j < |s| ==> s[i] != s[j]
  }

  /** `xs` is obtained from `ys` by deleting zero or more elements; the elements
      that remain keep their relative order. */
  predicate IsSubsequence<T(==)>(xs: seq<T>, ys: seq<T>)
    decreases |ys|
  {
    || xs == []
    || (&& ys != []
        && (|| (xs[0] == ys[0] && IsSubsequence(xs[1..], ys[1..]))
            || IsSubsequence(xs, ys[1..])))
  }

  /** The elements of `s` that satisfy `p`, in their original order (a Python list
      comprehension with an `if` clause). */
  function Filter<T(==)>(s: seq<T>, p: T -> bool): (r: seq<T>)
    ensures |r| <= |s|
    ensures forall i :: 0 <= i < |r| ==> r[i] in s && p(r[i])
    ensures forall i :: 0 <= i < |s| && p(s[i]) ==> s[i] in r
  {
    if s == [] then []
    else if p(s[0]) then [s[0]] + Filter(s[1..], p)
    else Filter(s[1..], p)
  }

  /** `f` applied to every element of `s`. */
  function Map<A, B>(f: A -> B, s: seq<A>): (r: seq<B>)
    ensures |r| == |s| && forall i :: 0 <= i < |s| ==> r[i] == f(s[i])
  {
    seq(|s|, i requires 0 <= i < |s| => f(s[i]))
  }

  /** The position of the first occurrence of `x` in `s`, or None (Python's
      `list.index`, with the ValueError made explicit). */
  function IndexOf<T(==)>(s: seq<T>, x: T): (r: Option<nat>)
    ensures r.Some? <==> x in s
    ensures r.Some? ==> r.value < |s| && s[r.value] == x && x !in s[..r.value]
  {
    if s == [] then None
    else if s[0] == x then Some(0)
    else match IndexOf(s[1..], x)
      case None => None
      case Some(k) => Some(k + 1)
  }

  /** Filtering yields a subsequence of its input. */
  lemma {:induction false} FilterIsSubsequence<T>(s: seq<T>, p: T -> bool)
    ensures IsSubsequence(Filter(s, p), s)
    decreases |s|
  {
    if s != [] {
      FilterIsSubsequence(s[1..], p);
      var r := Filter(s, p);
      if p(s[0]) {
        assert r[0] == s[0] && r[1..] == Filter(s[1..], p);
      }
    }
  }

  /** Every element of a subsequence is an element of the whole. */
  lemma {:induction false} SubsequenceMembers<T>(xs: seq<T>, ys: seq<T>)
    requires IsSubsequence(xs, ys)
    ensures forall x :: x in xs ==> x in ys
    decreases |ys|
  {
    if xs != [] {
      if xs[0] == ys[0] && IsSubsequence(xs[1..], ys[1..]) {
        SubsequenceMembers(xs[1..], ys[1..]);
        assert xs == [xs[0]] + xs[1..];
      } else {
        SubsequenceMembers(xs, ys[1..]);
      }
    }
  }

  /** A subsequence of a duplicate-free sequence is duplicate-free. */
  lemma {:induction false} SubsequenceNoDup<T>(xs: seq<T>, ys: seq<T>)
    requires IsSubsequence(xs, ys) && NoDup(ys)
    ensures NoDup(xs)
    decreases |ys|
  {
    if xs != [] {
      assert NoDup(ys[1..]) by {
        forall i, j | 0 <= i < j < |ys| - 1
          ensures ys[1..][i] != ys[1..][j]
        {
          assert ys[1..][i] == ys[i + 1] && ys[1..][j] == ys[j + 1];
        }
      }
      if xs[0] == ys[0] && IsSubsequence(xs[1..], ys[1..]) {
        SubsequenceNoDup(xs[1..], ys[1..]);
        SubsequenceMembers(xs[1..], ys[1..]);
        assert ys[0] !in ys[1..];
        forall i, j | 0 <= i < j < |xs|
          ensures xs[i] != xs[j]
        {
          assert xs[j] == xs[1..][j - 1];
          if i > 0 {
            assert xs[i] == xs[1..][i - 1];
          }
        }
      } else {
        SubsequenceNoDup(xs, ys[1..]);
      }
    }
  }

  /** Mapping both sides preserves the subsequence relation. */
  lemma {:induction false} SubsequenceMap<A, B>(f: A -> B, xs: seq<A>, ys: seq<A>)
    requires IsSubsequence(xs, ys)
    ensures IsSubsequence(Map(f, xs), Map(f, ys))
    decreases |ys|
  {
    if xs != [] {
      assert Map(f, ys)[1..] == Map(f, ys[1..]);
      if xs[0] == ys[0] && IsSubsequence(xs[1..], ys[1..]) {
        SubsequenceMap(f, xs[1..], ys[1..]);
        assert Map(f, xs)[1..] == Map(f, xs[1..]);
      } else {
        SubsequenceMap(f, xs, ys[1..]);
      }
    }
  }

  /** A subsequence that does not start with the first element of `ys` lies in the
      rest of `ys`. */
  lemma SubsequenceSkipHead<T>(xs: seq<T>, ys: seq<T>)
    requires IsSubsequence(xs, ys) && ys != [] && (xs == [] || xs[0] != ys[0] || ys[0] !in ys[1..])
    ensures xs != [] && xs[0] == ys[0] ==> IsSubsequence(xs[1..], ys[1..])
    ensures xs == [] || xs[0] != ys[0] ==> IsSubsequence(xs, ys[1..])
  {
    if xs != [] && xs[0] == ys[0] && !IsSubsequence(xs[1..], ys[1..]) {
      SubsequenceMembers(xs, ys[1..]);
      assert false;
    }
  }

  /** Order and membership pin a subsequence down: two subsequences of one
      duplicate-free sequence with the same elements are equal. */
  lemma {:induction false} SubsequenceDeterminedByMembers<T>(xs: seq<T>, ys: seq<T>, zs: seq<T>)
    requires IsSubsequence(xs, zs) && IsSubsequence(ys, zs) && NoDup(zs)
    requires forall x :: x in xs <==> x in ys
    ensures xs == ys
    decreases |zs|
  {
    if zs == [] {
      assert xs == [] && ys == [];
    } else {
      var z := zs[0];
      assert NoDup(zs[1..]) by {
        forall i, j | 0 <= i < j < |zs| - 1
          ensures zs[1..][i] != zs[1..][j]
        {
          assert zs[1..][i] == zs[i + 1] && zs[1..][j] == zs[j + 1];
        }
      }
      assert z !in zs[1..];
      SubsequenceSkipHead(xs, zs);
      SubsequenceSkipHead(ys, zs);
      if z in xs {
        if xs[0] != z {
          SubsequenceMembers(xs, zs[1..]);
          assert false;
        }
        if ys[0] != z {
          SubsequenceMembers(ys, zs[1..]);
          assert false;
        }
        SubsequenceMembers(xs[1..], zs[1..]);
        SubsequenceMembers(ys[1..], zs[1..]);
        forall x
          ensures x in xs[1..] <==> x in ys[1..]
        {
          assert xs == [z] + xs[1..] && ys == [z] + ys[1..];
          if x in xs[1..] {
            assert x in zs[1..];
            assert x in ys;
          }
          if x in ys[1..] {
            assert x in zs[1..];
            assert x in xs;
          }
        }
        SubsequenceDeterminedByMembers(xs[1..], ys[1..], zs[1..]);
        assert xs == [z] + xs[1..] && ys == [z] + ys[1..];
      } else {
        assert xs == [] || xs[0] != z;
        assert ys == [] || ys[0] != z;
        SubsequenceDeterminedByMembers(xs, ys, zs[1..]);
      }
    }
  }
}
