/**
 * Disjoint-set forest with path compression and union by rank.
 *
 * The forest is a parent array and a rank array over 0..n-1. Its meaning is the
 * function RootOf, which follows parent links up to a self-parented element;
 * two elements are in the same set iff they have the same root. Rank strictly
 * increases along every parent link (Ranked), which is what makes RootOf and
 * Find terminate.
 */
module UnionFinds {

  /** The largest rank, an upper bound for every rank. */
  function MaxRank(rank: seq<nat>): (m: nat)
    ensures forall i :: 0 <= i < |rank| ==> rank[i] <= m
  {
    if rank == [] then 0
    else
      var m := MaxRank(rank[1..]);
      if rank[0] > m then rank[0] else m
  }

  /** Well-formed forest: parents in range, rank strictly increasing along every parent link. */
  predicate Ranked(parent: seq<nat>, rank: seq<nat>)
  {
    && |parent| == |rank|
    && (forall i :: 0 <= i < |parent| ==> parent[i] < |parent|)
    && (forall i :: 0 <= i < |parent| && parent[i] != i ==> rank[i] < rank[parent[i]])
  }

  /** The representative of x: the self-parented element reached by following parent links. */
  function RootOf(parent: seq<nat>, rank: seq<nat>, x: nat): (r: nat)
    requires Ranked(parent, rank) && x < |parent|
    ensures r < |parent| && parent[r] == r
    ensures rank[x] <= rank[r] && (parent[x] != x ==> rank[x] < rank[r])
    ensures parent[x] == x ==> r == x
    decreases MaxRank(rank) - rank[x]
  {
    if parent[x] == x then x else RootOf(parent, rank, parent[x])
  }

  /**
   * Path compression: pointing x straight at its root keeps the forest ranked
   * and changes no element's root.
   */
  lemma {:induction false} CompressKeepsRoots(parent: seq<nat>, rank: seq<nat>, x: nat, i: nat)
    requires Ranked(parent, rank) && x < |parent| && i < |parent|
    ensures Ranked(parent[x := RootOf(parent, rank, x)], rank)
    ensures RootOf(parent[x := RootOf(parent, rank, x)], rank, i) == RootOf(parent, rank, i)
    decreases MaxRank(rank) - rank[i]
  {
    var r := RootOf(parent, rank, x);
    var compressed := parent[x := r];
    assert Ranked(compressed, rank);
    if i == x {
      if parent[x] != x {
        assert compressed[r] == r;
      }
    } else if parent[i] != i {
      CompressKeepsRoots(parent, rank, x, parent[i]);
    }
  }

  /**
   * Linking root a under root b (whose rank may be raised, but must end above a's)
   * keeps the forest ranked; a's set joins b's and every other root stays.
   */
  lemma {:induction false} LinkMergesRoots(parent: seq<nat>, rank: seq<nat>, a: nat, b: nat, rank': seq<nat>, i: nat)
    requires Ranked(parent, rank) && a < |parent| && b < |parent| && i < |parent|
    requires parent[a] == a && parent[b] == b && a != b
    requires |rank'| == |rank| && rank[a] < rank'[b] && rank[b] <= rank'[b]
    requires forall j :: 0 <= j < |rank| && j != b ==> rank'[j] == rank[j]
    ensures Ranked(parent[a := b], rank')
    ensures RootOf(parent[a := b], rank', i) ==
            if RootOf(parent, rank, i) == a then b else RootOf(parent, rank, i)
    decreases MaxRank(rank) - rank[i]
  {
    var linked := parent[a := b];
    forall j | 0 <= j < |linked| && linked[j] != j
      ensures rank'[j] < rank'[linked[j]]
    {
      if j != a {
        assert rank[j] < rank[parent[j]];
      }
    }
    assert Ranked(linked, rank');
    if i == a {
      assert linked[b] == b;
    } else if parent[i] != i {
      LinkMergesRoots(parent, rank, a, b, rank', parent[i]);
    }
  }

  /** The forest built by the constructor: everything its own parent, rank 0. */
  function Singletons(n: nat): (s: (seq<nat>, seq<nat>))
    ensures Ranked(s.0, s.1) && |s.0| == n
    ensures forall i :: 0 <= i < n ==> RootOf(s.0, s.1, i) == i
  {
    (seq(n, i => i), seq(n, i => 0))
  }

  /**
   * Union by rank on two distinct roots: the lower-rank root goes under the
   * other; on equal ranks b goes under a, whose rank grows by one. The two sets
   * become one and every other element keeps its root.
   */
  method Link(parent: seq<nat>, rank: seq<nat>, a: nat, b: nat) returns (parent': seq<nat>, rank': seq<nat>)
    requires Ranked(parent, rank) && a < |parent| && b < |parent|
    requires parent[a] == a && parent[b] == b && a != b
    ensures Ranked(parent', rank') && |parent'| == |parent|
    ensures RootOf(parent', rank', a) == (if rank[a] < rank[b] then b else a)
    ensures forall i :: 0 <= i < |parent| ==>
      RootOf(parent', rank', i) ==
        if RootOf(parent, rank, i) in {a, b} then RootOf(parent', rank', a) else RootOf(parent, rank, i)
    ensures forall i :: 0 <= i < |rank| && rank'[i] != rank[i] ==>
      i == a && rank[a] == rank[b] && rank'[i] == rank[i] + 1
  {
    rank' := rank;
    if rank[a] < rank[b] {
      parent' := parent[a := b];
      forall i | 0 <= i < |parent|
        ensures RootOf(parent', rank', i) == if RootOf(parent, rank, i) == a then b else RootOf(parent, rank, i)
      {
        LinkMergesRoots(parent, rank, a, b, rank', i);
      }
    } else {
      parent' := parent[b := a];
      if rank[a] == rank[b] {
        rank' := rank[a := rank[a] + 1];
      }
      forall i | 0 <= i < |parent|
        ensures RootOf(parent', rank', i) == if RootOf(parent, rank, i) == b then a else RootOf(parent, rank, i)
      {
        LinkMergesRoots(parent, rank, b, a, rank', i);
      }
    }
  }

  class UnionFind {
    var parent: seq<nat>
    var rank: seq<nat>

    ghost predicate Valid()
      reads this
    {
      Ranked(parent, rank)
    }

    constructor (n: nat)
      ensures Valid() && |parent| == n
      ensures forall i :: 0 <= i < n ==> parent[i] == i && rank[i] == 0
    {
      rank := seq(n, i => 0);
      var p: seq<nat> := [];
      var i := 0;
      while i < n
        invariant i <= n && |p| == i
        invariant forall j :: 0 <= j < i ==> p[j] == j
      {
        p := p + [i];
        i := i + 1;
      }
      parent := p;
    }

    /** The root of x; every element visited on the way is re-pointed at that root. */
    method Find(x: nat) returns (r: nat)
      requires Valid() && x < |parent|
      modifies this
      ensures Valid() && |parent| == old(|parent|) && rank == old(rank)
      ensures r == RootOf(old(parent), old(rank), x) && parent[r] == r
      ensures forall i :: 0 <= i < |parent| ==> RootOf(parent, rank, i) == RootOf(old(parent), old(rank), i)
      decreases MaxRank(rank) - rank[x]
    {
      if parent[x] != x {
        var root := Find(parent[x]);
        ghost var before := parent;
        assert RootOf(before, rank, x) == root;
        parent := parent[x := root];
        forall i | 0 <= i < |parent|
          ensures RootOf(parent, rank, i) == RootOf(before, rank, i)
        {
          CompressKeepsRoots(before, rank, x, i);
        }
      }
      r := parent[x];
    }

    /**
     * Merges the sets of x and y: the lower-rank root goes under the other, and
     * on equal ranks y's root goes under x's, whose rank grows by one.
     */
    method Unite(x: nat, y: nat)
      requires Valid() && x < |parent| && y < |parent|
      modifies this
      ensures Valid() && |parent| == old(|parent|)
      ensures RootOf(parent, rank, x) == RootOf(parent, rank, y)
      ensures forall i :: 0 <= i < |parent| ==>
        RootOf(parent, rank, i) ==
          if RootOf(old(parent), old(rank), i) in {RootOf(old(parent), old(rank), x), RootOf(old(parent), old(rank), y)}
          then RootOf(parent, rank, x)
          else RootOf(old(parent), old(rank), i)
      ensures forall i :: 0 <= i < |rank| && rank[i] != old(rank)[i] ==>
        && i == RootOf(old(parent), old(rank), x)
        && old(rank)[i] == old(rank)[RootOf(old(parent), old(rank), y)]
        && rank[i] == old(rank)[i] + 1
      ensures RootOf(old(parent), old(rank), x) == RootOf(old(parent), old(rank), y) ==>
        && rank == old(rank)
        && forall i :: 0 <= i < |parent| ==> RootOf(parent, rank, i) == RootOf(old(parent), old(rank), i)
      ensures var rx, ry := RootOf(old(parent), old(rank), x), RootOf(old(parent), old(rank), y);
        rx != ry ==> RootOf(parent, rank, x) == if old(rank)[rx] < old(rank)[ry] then ry else rx
    {
      var rootX := Find(x);
      var rootY := Find(y);
      if rootX == rootY {
        return;
      }
      ghost var p := parent;
      assert RootOf(p, rank, rootX) == rootX && RootOf(p, rank, rootY) == rootY;
      parent, rank := Link(parent, rank, rootX, rootY);
    }
  }
}
