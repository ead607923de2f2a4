/** Sequence and string helpers that stand in for the Rust iterator
    adaptors the benchmark crate uses (`filter`, `take`, `sum`,
    `str::replace` with a character pattern). */
module Seqs {

  /** The elements of `s` that satisfy `p`, in their original order:
      `s.iter().filter(p).collect()`. */
  function Filter<T>(s: seq<T>, p: T -> bool): (r: seq<T>)
    ensures |r| <= |s|
    ensures forall i :: 0 <= i < |r| ==> p(r[i]) && r[i] in s
    ensures forall x :: x in s && p(x) ==> x in r
  {
    if |s| == 0 then []
    else
      var init := s[..|s| - 1];
      assert s == init + [s[|s| - 1]];
      Filter(init, p) + (if p(s[|s| - 1]) then [s[|s| - 1]] else [])
  }

  /** `a` can be obtained from `b` by deleting elements: the order of what
      is kept is the order in `b`. */
  ghost predicate SubsequenceOf<T>(a: seq<T>, b: seq<T>)
    decreases |b|
  {
    if |a| == 0 then true
    else if |b| == 0 then false
    else
      (a[|a| - 1] == b[|b| - 1] && SubsequenceOf(a[..|a| - 1], b[..|b| - 1]))
      || SubsequenceOf(a, b[..|b| - 1])
  }

  /** Filtering keeps the surviving elements in their original order. */
  lemma {:induction false} FilterIsSubsequence<T>(s: seq<T>, p: T -> bool)
    ensures SubsequenceOf(Filter(s, p), s)
  {
    if |s| > 0 {
      var init := s[..|s| - 1];
      var f := Filter(s, p);
      FilterIsSubsequence(init, p);
      if p(s[|s| - 1]) {
        assert f[..|f| - 1] == Filter(init, p);
      } else {
        assert f == Filter(init, p);
      }
    }
  }

  /** When every element satisfies exactly one of three predicates, the
      three filters share the elements out among themselves. */
  lemma {:induction false} FilterPartition3<T>(s: seq<T>, p: T -> bool, q: T -> bool, u: T -> bool)
    requires forall x :: x in s ==> (p(x) || q(x) || u(x))
    requires forall x :: x in s ==> !(p(x) && q(x)) && !(p(x) && u(x)) && !(q(x) && u(x))
    ensures |Filter(s, p)| + |Filter(s, q)| + |Filter(s, u)| == |s|
  {
    if |s| > 0 {
      var init := s[..|s| - 1];
      assert forall x :: x in init ==> x in s;
      FilterPartition3(init, p, q, u);
      assert s[|s| - 1] in s;
    }
  }

  /** The first `n` elements of `s`, or all of them if there are fewer:
      `s.iter().take(n)`. */
  function Take<T>(s: seq<T>, n: nat): (r: seq<T>)
    ensures |r| == if |s| <= n then |s| else n
    ensures forall i :: 0 <= i < |r| ==> r[i] == s[i]
  {
    if |s| <= n then s else s[..n]
  }

  /** Every occurrence in `s` of a character from `targets` replaced by
      `sub`; the other characters are kept in place. This is Rust's
      `str::replace` with a character (or character-array) pattern and a
      one-character replacement. */
  function ReplaceAll(s: string, targets: set<char>, sub: char): (r: string)
    ensures |r| == |s|
    ensures forall i :: 0 <= i < |s| && s[i] !in targets ==> r[i] == s[i]
    ensures forall i :: 0 <= i < |s| && s[i] in targets ==> r[i] == sub
  {
    seq(|s|, i requires 0 <= i < |s| => if s[i] in targets then sub else s[i])
  }

  /** When the replacement is not itself a target, no target survives. */
  lemma ReplaceAllRemovesTargets(s: string, targets: set<char>, sub: char)
    requires sub !in targets
    ensures forall c :: c in targets ==> c !in ReplaceAll(s, targets, sub)
  {
  }

  /** Replacing twice changes nothing more than replacing once. */
  lemma ReplaceAllIdempotent(s: string, targets: set<char>, sub: char)
    requires sub !in targets
    ensures ReplaceAll(ReplaceAll(s, targets, sub), targets, sub) == ReplaceAll(s, targets, sub)
  {
  }

  /** The sum of `s`: `s.iter().sum::<f64>()`, over the reals. */
  function Sum(s: seq<real>): real
  {
    if |s| == 0 then 0.0 else Sum(s[..|s| - 1]) + s[|s| - 1]
  }

  /** A sum of `n` terms each between `lo` and `hi` lies between `n * lo`
      and `n * hi`. */
  lemma {:induction false} SumBounds(s: seq<real>, lo: real, hi: real)
    requires forall i :: 0 <= i < |s| ==> lo <= s[i] <= hi
    ensures |s| as real * lo <= Sum(s) <= |s| as real * hi
  {
    if |s| > 0 {
      SumBounds(s[..|s| - 1], lo, hi);
    }
  }
}
