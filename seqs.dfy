/** Order-preserving selection on sequences, used to state that the batch
    loops keep the input order and never invent entries. */
module Seqs {

  /** `xs` can be obtained from `ys` by deleting entries. */
  predicate IsSubseq<T(==)>(xs: seq<T>, ys: seq<T>)
    decreases |ys|
  {
    if xs == [] then true
    else if ys == [] then false
    else (xs[0] == ys[0] && IsSubseq(xs[1..], ys[1..])) || IsSubseq(xs, ys[1..])
  }

  lemma {:induction false} SubseqLength<T>(xs: seq<T>, ys: seq<T>)
    requires IsSubseq(xs, ys)
    ensures |xs| <= |ys|
    decreases |ys|
  {
    if xs != [] {
      if xs[0] == ys[0] && IsSubseq(xs[1..], ys[1..]) {
        SubseqLength(xs[1..], ys[1..]);
      } else {
        SubseqLength(xs, ys[1..]);
      }
    }
  }

  lemma {:induction false} SubseqRefl<T>(xs: seq<T>)
    ensures IsSubseq(xs, xs)
  {
    if xs != [] {
      SubseqRefl(xs[1..]);
    }
  }

  /** Deleting from the front of the bigger sequence keeps a subsequence. */
  lemma {:induction false} SubseqPrepend<T>(xs: seq<T>, ys: seq<T>, zs: seq<T>)
    requires IsSubseq(xs, zs)
    ensures IsSubseq(xs, ys + zs)
    decreases |ys|
  {
    if ys == [] {
      assert ys + zs == zs;
    } else {
      SubseqPrepend(xs, ys[1..], zs);
      assert (ys + zs)[1..] == ys[1..] + zs;
      if xs != [] {
        assert IsSubseq(xs, (ys + zs)[1..]);
      }
    }
  }

  /** Subsequences of consecutive pieces join into a subsequence of the whole. */
  lemma {:induction false} SubseqConcat<T>(a: seq<T>, b: seq<T>, c: seq<T>, d: seq<T>)
    requires IsSubseq(a, b) && IsSubseq(c, d)
    ensures IsSubseq(a + c, b + d)
    decreases |b|
  {
    if a == [] {
      SubseqPrepend(c, b, d);
      assert a + c == c;
    } else if a[0] == b[0] && IsSubseq(a[1..], b[1..]) {
      SubseqConcat(a[1..], b[1..], c, d);
      assert (a + c)[1..] == a[1..] + c;
      assert (b + d)[1..] == b[1..] + d;
    } else {
      SubseqConcat(a, b[1..], c, d);
      assert (b + d)[1..] == b[1..] + d;
    }
  }

  /** A prefix is a subsequence. */
  lemma {:induction false} PrefixIsSubseq<T>(xs: seq<T>, ys: seq<T>)
    requires xs <= ys
    ensures IsSubseq(xs, ys)
  {
    if xs != [] {
      PrefixIsSubseq(xs[1..], ys[1..]);
    }
  }

  function Firsts<A, B>(ps: seq<(A, B)>): (r: seq<A>)
    ensures |r| == |ps| && forall k :: 0 <= k < |ps| ==> r[k] == ps[k].0
  {
    seq(|ps|, k requires 0 <= k < |ps| => ps[k].0)
  }

  function Min(a: int, b: int): int
  {
    if a < b then a else b
  }

  /** Concatenation regroups freely. */
  lemma AppendAssoc<T>(a: seq<T>, b: seq<T>, c: seq<T>)
    ensures (a + b) + c == a + (b + c)
  {
  }

  /** The first components of a concatenation. */
  lemma FirstsAppend<A, B>(a: seq<(A, B)>, b: seq<(A, B)>)
    ensures Firsts(a + b) == Firsts(a) + Firsts(b)
  {
    assert forall k :: 0 <= k < |a + b| ==> Firsts(a + b)[k] == (Firsts(a) + Firsts(b))[k];
  }

  /** A slice that lies inside the left operand of a concatenation. */
  lemma SliceLeft<T>(a: seq<T>, b: seq<T>, lo: nat, hi: nat)
    requires lo <= hi <= |a|
    ensures (a + b)[lo..hi] == a[lo..hi]
  {
  }

  /** A slice that lies inside the right operand of a concatenation. */
  lemma SliceRight<T>(a: seq<T>, b: seq<T>, lo: nat, hi: nat)
    requires |a| <= lo <= hi <= |a| + |b|
    ensures (a + b)[lo..hi] == b[lo - |a|..hi - |a|]
  {
  }
}
