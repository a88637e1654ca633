/**
 The k-ary tree of partitions over which the stable time is aggregated
 (src/server/server.c). Partition 0 is the root; `f` is the fanout and `n` the
 number of partitions.
 */
module Tree {

  function Parent(f: nat, c: nat): (p: nat)
    requires f >= 1 && c >= 1
    ensures p < c
  {
    DivBounds(c - 1, f);
    (c - 1) / f
  }

  function ChildIndex(f: nat, c: nat): (i: nat)
    requires f >= 1 && c >= 1
    ensures i < f
  {
    (c - 1) % f
  }

  function FirstChild(f: nat, p: nat): nat { p * f + 1 }

  function LastChild(f: nat, p: nat): nat { p * f + f }

  predicate IsLeaf(f: nat, n: nat, p: nat) { FirstChild(f, p) >= n }

  /** The number of children, by the closed formula of the C code. */
  function NumChildren(f: nat, n: nat, p: nat): nat
    requires f >= 1
  {
    if LastChild(f, p) < n then f
    else if FirstChild(f, p) < n then f - (LastChild(f, p) - n + 1)
    else 0
  }

  predicate IsChild(f: nat, n: nat, p: nat, c: nat)
    requires f >= 1
  {
    1 <= c < n && Parent(f, c) == p
  }

  /** The partition whose index among the children of `p` is `i`. */
  function ChildAt(f: nat, p: nat, i: nat): nat { p * f + 1 + i }

  lemma DivBounds(x: nat, f: nat)
    requires f >= 1
    ensures x / f <= x
    ensures (x / f) * f + x % f == x
  {
    MulGe(x / f, f);
  }

  lemma {:induction false} MulGe(q: nat, f: nat)
    requires f >= 1
    ensures q * f >= q
  {
    if q > 0 {
      MulGe(q - 1, f);
      assert q * f == (q - 1) * f + f;
    }
  }

  lemma DivUnique(x: nat, f: nat, q: nat, m: nat)
    requires f >= 1 && m < f && x == q * f + m
    ensures x / f == q && x % f == m
  {
    var d := x / f;
    DivBounds(x, f);
    assert (d + 1) * f == d * f + f;
    assert (q + 1) * f == q * f + f;
    if d < q {
      MulMono(d + 1, q, f);
    } else if d > q {
      MulMono(q + 1, d, f);
    }
  }

  lemma MulMono(a: nat, b: nat, f: nat)
    requires a <= b
    ensures a * f <= b * f
  {
  }

  /**
   Parent and index are the inverse of the child range: a partition other than
   the root lies in exactly the range of its parent, at its own index.
   */
  lemma ChildRange(f: nat, p: nat, c: nat)
    requires f >= 1 && c >= 1
    ensures Parent(f, c) == p <==> FirstChild(f, p) <= c <= LastChild(f, p)
    ensures Parent(f, c) == p ==> c == ChildAt(f, p, ChildIndex(f, c))
  {
    DivBounds(c - 1, f);
    if FirstChild(f, p) <= c <= LastChild(f, p) {
      DivUnique(c - 1, f, p, c - 1 - p * f);
    }
  }

  lemma ChildAtIsChild(f: nat, p: nat, i: nat)
    requires f >= 1 && i < f
    ensures Parent(f, ChildAt(f, p, i)) == p && ChildIndex(f, ChildAt(f, p, i)) == i
  {
    DivUnique(ChildAt(f, p, i) - 1, f, p, i);
  }

  /** Sibling indices are a bijection from the children onto 0..NumChildren. */
  lemma IndexBijection(f: nat, n: nat, p: nat)
    requires f >= 1
    ensures NumChildren(f, n, p) <= f
    ensures forall c :: IsChild(f, n, p, c) ==> ChildIndex(f, c) < NumChildren(f, n, p)
    ensures forall i :: 0 <= i < NumChildren(f, n, p) ==>
      IsChild(f, n, p, ChildAt(f, p, i)) && ChildIndex(f, ChildAt(f, p, i)) == i
    ensures forall c, d :: IsChild(f, n, p, c) && IsChild(f, n, p, d) && ChildIndex(f, c) == ChildIndex(f, d) ==> c == d
  {
    forall c | IsChild(f, n, p, c)
      ensures ChildIndex(f, c) < NumChildren(f, n, p) && c == ChildAt(f, p, ChildIndex(f, c))
    {
      ChildRange(f, p, c);
    }
    forall i | 0 <= i < NumChildren(f, n, p)
      ensures IsChild(f, n, p, ChildAt(f, p, i)) && ChildIndex(f, ChildAt(f, p, i)) == i
    {
      ChildAtIsChild(f, p, i);
    }
  }

  /** A leaf is exactly a partition without children. */
  lemma LeafHasNoChild(f: nat, n: nat, p: nat)
    requires f >= 1
    ensures IsLeaf(f, n, p) <==> NumChildren(f, n, p) == 0
    ensures IsLeaf(f, n, p) <==> forall c :: !IsChild(f, n, p, c)
  {
    IndexBijection(f, n, p);
    if NumChildren(f, n, p) > 0 {
      assert IsChild(f, n, p, ChildAt(f, p, 0));
    }
  }

  /** `c` is `a` or one of its descendants. */
  predicate InSubtree(f: nat, a: nat, c: nat)
    requires f >= 1
    decreases c
  {
    c == a || (c > a && InSubtree(f, a, Parent(f, c)))
  }

  /** Every partition descends from partition 0. */
  lemma {:induction false} RootCovers(f: nat, c: nat)
    requires f >= 1
    ensures InSubtree(f, 0, c)
    decreases c
  {
    if c > 0 {
      RootCovers(f, Parent(f, c));
    }
  }

  /** A proper descendant of `a` lies below exactly one child of `a`. */
  lemma {:induction false} BelowSomeChild(f: nat, n: nat, a: nat, c: nat) returns (ch: nat)
    requires f >= 1 && InSubtree(f, a, c) && c != a && c < n
    ensures IsChild(f, n, a, ch) && InSubtree(f, ch, c)
    decreases c
  {
    if Parent(f, c) == a {
      ch := c;
    } else {
      ch := BelowSomeChild(f, n, a, Parent(f, c));
      SubtreeAbove(f, ch, Parent(f, c));
    }
  }

  lemma {:induction false} SubtreeAbove(f: nat, a: nat, c: nat)
    requires f >= 1 && InSubtree(f, a, c)
    ensures a <= c
    decreases c
  {
  }

  /** The enumeration loop visits the children in order, each exactly once. */
  method Children(f: nat, n: nat, p: nat) returns (cs: seq<nat>)
    requires f >= 1
    ensures |cs| == NumChildren(f, n, p)
    ensures forall i :: 0 <= i < |cs| ==> cs[i] == ChildAt(f, p, i)
    ensures forall c :: c in cs <==> IsChild(f, n, p, c)
  {
    cs := [];
    var i := FirstChild(f, p);
    while i <= LastChild(f, p) && i < n
      invariant FirstChild(f, p) <= i <= LastChild(f, p) + 1
      invariant i <= n || i == FirstChild(f, p)
      invariant |cs| == i - FirstChild(f, p)
      invariant forall k :: 0 <= k < |cs| ==> cs[k] == ChildAt(f, p, k)
      decreases LastChild(f, p) + 1 - i
    {
      cs := cs + [i];
      i := i + 1;
    }
    IndexBijection(f, n, p);
    forall c | IsChild(f, n, p, c)
      ensures c in cs
    {
      ChildRange(f, p, c);
      assert cs[ChildIndex(f, c)] == c;
    }
  }
}
