/** The pick-and-freeze rule that builds the two mixed model arguments
    from the two base draws of one Monte Carlo iteration.

    Index sets are 1-based, as in the estimator: position p of a vector
    (0-based) belongs to the group of interest when p + 1 is in the set. */
module PickFreeze {

  /** The mixed vector that takes a[p] where parameter p + 1 is in s ("pick")
      and b[p] everywhere else ("freeze"). */
  function Assemble(a: seq<real>, b: seq<real>, s: set<int>): (r: seq<real>)
    requires |a| == |b|
    ensures |r| == |a|
  {
    seq(|a|, p requires 0 <= p < |a| && |a| == |b| => if p + 1 in s then a[p] else b[p])
  }

  /** With no parameter of interest every position is frozen: the result is b. */
  lemma {:induction false} AssembleEmpty(a: seq<real>, b: seq<real>)
    requires |a| == |b|
    ensures Assemble(a, b, {}) == b
  {
  }

  /** When every parameter 1..|a| is of interest every position is picked: the result is a. */
  lemma {:induction false} AssembleFull(a: seq<real>, b: seq<real>, s: set<int>)
    requires |a| == |b|
    requires forall j :: 1 <= j <= |a| ==> j in s
    ensures Assemble(a, b, s) == a
  {
  }

  /** Members of the index set outside 1..|a| have no effect: two sets that
      agree on 1..|a| assemble the same vector. */
  lemma {:induction false} AssembleIgnoresOutside(a: seq<real>, b: seq<real>, s: set<int>, t: set<int>)
    requires |a| == |b|
    requires forall j :: 1 <= j <= |a| ==> (j in s <==> j in t)
    ensures Assemble(a, b, s) == Assemble(a, b, t)
  {
    forall p | 0 <= p < |a|
      ensures Assemble(a, b, s)[p] == Assemble(a, b, t)[p]
    {
      assert p + 1 in s <==> p + 1 in t;
    }
  }

  /** Assembling against the complementary group (relative to 1..|a|) is the
      same as swapping the two draws: arg2 of one group is arg1 of its complement. */
  lemma {:induction false} AssembleComplement(a: seq<real>, b: seq<real>, s: set<int>, t: set<int>)
    requires |a| == |b|
    requires forall j :: 1 <= j <= |a| ==> (j in t <==> j !in s)
    ensures Assemble(a, b, t) == Assemble(b, a, s)
  {
    forall p | 0 <= p < |a|
      ensures Assemble(a, b, t)[p] == Assemble(b, a, s)[p]
    {
      assert p + 1 in t <==> p + 1 !in s;
    }
  }

  /** The two mixed vectors together hold exactly the values of the two base
      draws: nothing is duplicated or lost by the swap. */
  lemma {:induction false} AssembleConserves(a: seq<real>, b: seq<real>, s: set<int>)
    requires |a| == |b|
    ensures multiset(Assemble(a, b, s)) + multiset(Assemble(b, a, s)) == multiset(a) + multiset(b)
    decreases |a|
  {
    if a != [] {
      var n := |a| - 1;
      var a', b' := a[..n], b[..n];
      AssembleConserves(a', b', s);
      AssembleLast(a, b, s);
      AssembleLast(b, a, s);
      AppendPair(Assemble(a', b', s), Assemble(b', a', s), a', b',
                 if n + 1 in s then a[n] else b[n], if n + 1 in s then b[n] else a[n], a[n], b[n]);
      SplitLast(a);
      SplitLast(b);
    }
  }

  lemma SplitLast<T>(a: seq<T>)
    requires a != []
    ensures a == a[..|a| - 1] + [a[|a| - 1]]
  {
  }

  lemma AssembleLast(a: seq<real>, b: seq<real>, s: set<int>)
    requires |a| == |b| && a != []
    ensures Assemble(a, b, s)
         == Assemble(a[..|a| - 1], b[..|a| - 1], s) + [if |a| in s then a[|a| - 1] else b[|a| - 1]]
  {
  }

  /** Extending two pairs of sequences with the same two values, in either order,
      keeps their combined multisets equal. */
  lemma AppendPair(c: seq<real>, d: seq<real>, a: seq<real>, b: seq<real>, x: real, y: real, u: real, v: real)
    requires multiset(c) + multiset(d) == multiset(a) + multiset(b)
    requires (x == u && y == v) || (x == v && y == u)
    ensures multiset(c + [x]) + multiset(d + [y]) == multiset(a + [u]) + multiset(b + [v])
  {
    var lhs := multiset(c + [x]) + multiset(d + [y]);
    var rhs := multiset(a + [u]) + multiset(b + [v]);
    forall z ensures lhs[z] == rhs[z] {
      assert (multiset(c) + multiset(d))[z] == (multiset(a) + multiset(b))[z];
    }
    assert lhs == rhs;
  }
}
