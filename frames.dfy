/**
 * Row selection on a table held as a sequence of rows: the boolean-mask
 * selection `df[mask]` and `df.head(n)`, together with the notion of an
 * order-preserving subsequence that both of them produce.
 */
module Frames {

  /** `df[mask]`: the rows that satisfy `keep`, in their original order. */
  function Where<T(!new)>(keep: T -> bool, s: seq<T>): (r: seq<T>)
    ensures |r| <= |s|
    ensures forall x :: x in r <==> x in s && keep(x)
    ensures forall x {:trigger multiset(r)[x]} :: multiset(r)[x] == if keep(x) then multiset(s)[x] else 0
  {
    if s == [] then []
    else
      assert s == [s[0]] + s[1..];
      if keep(s[0]) then [s[0]] + Where(keep, s[1..]) else Where(keep, s[1..])
  }

  /** `df.head(n)`: the first `n` rows, or all of them when there are fewer. */
  function Head<T>(s: seq<T>, n: nat): (r: seq<T>)
    ensures r <= s
    ensures |r| == if |s| < n then |s| else n
  {
    if |s| <= n then s else s[..n]
  }

  /** `a` can be obtained from `b` by deleting rows, without reordering the rest. */
  ghost predicate IsSubseq<T>(a: seq<T>, b: seq<T>)
    decreases |b|
  {
    if a == [] then true
    else if b == [] then false
    else (a[0] == b[0] && IsSubseq(a[1..], b[1..])) || IsSubseq(a, b[1..])
  }

  lemma {:induction false} SubseqTrans<T>(a: seq<T>, b: seq<T>, c: seq<T>)
    requires IsSubseq(a, b) && IsSubseq(b, c)
    ensures IsSubseq(a, c)
    decreases |c|
  {
    if a == [] {
    } else if IsSubseq(b, c[1..]) {
      SubseqTrans(a, b, c[1..]);
    } else if a[0] == b[0] && IsSubseq(a[1..], b[1..]) {
      SubseqTrans(a[1..], b[1..], c[1..]);
    } else {
      SubseqTrans(a, b[1..], c[1..]);
    }
  }

  lemma {:induction false} PrefixIsSubseq<T>(a: seq<T>, b: seq<T>)
    requires a <= b
    ensures IsSubseq(a, b)
    decreases |b|
  {
    if a != [] {
      PrefixIsSubseq(a[1..], b[1..]);
    }
  }

  lemma {:induction false} WhereIsSubseq<T(!new)>(keep: T -> bool, s: seq<T>)
    ensures IsSubseq(Where(keep, s), s)
    decreases |s|
  {
    if s != [] {
      WhereIsSubseq(keep, s[1..]);
    }
  }

  /** Selecting with a mask every row passes returns the table unchanged. */
  lemma {:induction false} WhereAll<T(!new)>(keep: T -> bool, s: seq<T>)
    requires forall x :: x in s ==> keep(x)
    ensures Where(keep, s) == s
    decreases |s|
  {
    if s != [] {
      assert s[0] in s;
      assert forall x :: x in s[1..] ==> x in s;
      WhereAll(keep, s[1..]);
    }
  }

  /** A selection is empty exactly when no row passes the mask. */
  lemma WhereEmpty<T(!new)>(keep: T -> bool, s: seq<T>)
    ensures Where(keep, s) == [] <==> forall x :: x in s ==> !keep(x)
  {
  }
}
