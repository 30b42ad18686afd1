/**
 * Vertex adjacency built from a triangle list (Planet::detectVerticesNeighbors).
 *
 * The adjacency array is resized to the vertex count, keeping whatever lists it
 * already held; every triangle edge whose two ends are in range is recorded in
 * both directions; each list is then sorted and its duplicates removed. The
 * meaning of the result is stated by IsAdjacency: each list is strictly
 * increasing and holds exactly the previous entries plus the triangle neighbours.
 */
module Adjacency {
  import opened Meshes

  predicate StrictlySorted(s: seq<nat>)
  {
    forall i, j :: 0 <= i < j < |s| ==> s[i] < s[j]
  }

  /** Inserting into a strictly increasing list, keeping it strictly increasing and adding nothing twice. */
  function Insert(r: seq<nat>, x: nat): (r': seq<nat>)
    requires StrictlySorted(r)
    ensures StrictlySorted(r')
    ensures forall y :: y in r' <==> y in r || y == x
  {
    if r == [] then [x]
    else if x < r[0] then [x] + r
    else if x == r[0] then r
    else
      var rest := Insert(r[1..], x);
      assert forall y :: y in rest ==> r[0] < y by {
        forall y | y in r[1..]
          ensures r[0] < y
        {
          var i :| 0 <= i < |r[1..]| && r[1..][i] == y;
          assert r[i + 1] == y;
        }
      }
      assert forall j :: 0 <= j < |rest| ==> r[0] < rest[j] by {
        forall j | 0 <= j < |rest|
          ensures r[0] < rest[j]
        {
          assert rest[j] in rest;
        }
      }
      [r[0]] + rest
  }

  /** std::sort followed by std::unique and erase: the distinct values, in increasing order. */
  function SortUnique(s: seq<nat>): (r: seq<nat>)
    ensures StrictlySorted(r)
    ensures forall x :: x in r <==> x in s
  {
    if s == [] then [] else Insert(SortUnique(s[..|s| - 1]), s[|s| - 1])
  }

  /** A strictly increasing list is determined by its elements. */
  lemma {:induction false} SortedUniqueness(a: seq<nat>, b: seq<nat>)
    requires StrictlySorted(a) && StrictlySorted(b)
    requires forall x :: x in a <==> x in b
    ensures a == b
  {
    if a != [] {
      assert a[0] in a;
    }
    if b != [] {
      assert b[0] in b;
    }
    if a != [] {
      assert a[0] in b && b[0] in a;
      assert a[0] == b[0];
      forall x
        ensures x in a[1..] <==> x in b[1..]
      {
        if x in a[1..] {
          assert x in a && x != a[0];
          assert x in b;
        }
        if x in b[1..] {
          assert x in b && x != b[0];
          assert x in a;
        }
      }
      SortedUniqueness(a[1..], b[1..]);
      assert a == [a[0]] + a[1..];
      assert b == [b[0]] + b[1..];
    }
  }

  /** x is recorded in v's list because of this triangle: one of its three edges joins v and x, both in range. */
  predicate EdgeIn(tri: Triangle, n: nat, v: nat, x: nat)
  {
    || (tri.v0 < n && tri.v1 < n && ((v == tri.v0 && x == tri.v1) || (v == tri.v1 && x == tri.v0)))
    || (tri.v1 < n && tri.v2 < n && ((v == tri.v1 && x == tri.v2) || (v == tri.v2 && x == tri.v1)))
    || (tri.v2 < n && tri.v0 < n && ((v == tri.v2 && x == tri.v0) || (v == tri.v0 && x == tri.v2)))
  }

  /** Some triangle of the list records x in v's list. */
  predicate Linked(triangles: seq<Triangle>, n: nat, v: nat, x: nat)
  {
    |triangles| > 0 &&
    (Linked(triangles[..|triangles| - 1], n, v, x) || EdgeIn(triangles[|triangles| - 1], n, v, x))
  }

  /** The specification of the result. */
  ghost predicate IsAdjacency(r: seq<seq<nat>>, previous: seq<seq<nat>>, triangles: seq<Triangle>, n: nat)
  {
    && |r| == n
    && (forall v :: 0 <= v < n ==> StrictlySorted(r[v]))
    && (forall v, x :: 0 <= v < n ==>
          (x in r[v] <==> (v < |previous| && x in previous[v]) || Linked(triangles, n, v, x)))
  }

  /** The three pairs of push_back calls for one triangle. */
  function AddTriangle(lists: seq<seq<nat>>, tri: Triangle): (r: seq<seq<nat>>)
    ensures |r| == |lists|
    ensures forall v, x :: 0 <= v < |lists| ==> (x in r[v] <==> x in lists[v] || EdgeIn(tri, |lists|, v, x))
  {
    var n := |lists|;
    var l1 := if tri.v0 < n && tri.v1 < n then
      var t := lists[tri.v0 := lists[tri.v0] + [tri.v1]]; t[tri.v1 := t[tri.v1] + [tri.v0]]
    else lists;
    var l2 := if tri.v1 < n && tri.v2 < n then
      var t := l1[tri.v1 := l1[tri.v1] + [tri.v2]]; t[tri.v2 := t[tri.v2] + [tri.v1]]
    else l1;
    if tri.v2 < n && tri.v0 < n then
      var t := l2[tri.v2 := l2[tri.v2] + [tri.v0]]; t[tri.v0 := t[tri.v0] + [tri.v2]]
    else l2
  }

  method DetectNeighbors(previous: seq<seq<nat>>, triangles: seq<Triangle>, n: nat) returns (r: seq<seq<nat>>)
    ensures IsAdjacency(r, previous, triangles, n)
  {
    var lists := seq(n, v requires 0 <= v < n => if v < |previous| then previous[v] else []);
    var t := 0;
    while t < |triangles|
      invariant t <= |triangles| && |lists| == n
      invariant forall v, x :: 0 <= v < n ==>
        (x in lists[v] <==> (v < |previous| && x in previous[v]) || Linked(triangles[..t], n, v, x))
    {
      assert triangles[..t + 1][..t] == triangles[..t];
      lists := AddTriangle(lists, triangles[t]);
      t := t + 1;
    }
    assert triangles[..t] == triangles;
    r := [];
    var v := 0;
    while v < n
      invariant v <= n && |r| == v
      invariant forall u :: 0 <= u < v ==> r[u] == SortUnique(lists[u])
    {
      r := r + [SortUnique(lists[v])];
      v := v + 1;
    }
  }

  /** Adjacency lists that are symmetric and name only vertices in range. */
  ghost predicate Symmetric(r: seq<seq<nat>>)
  {
    forall v :: 0 <= v < |r| ==> forall x :: x in r[v] ==> x < |r| && v in r[x]
  }

  /** The previous lists, restricted to the new size, are symmetric and in range (true of an empty array). */
  ghost predicate SymmetricWithin(previous: seq<seq<nat>>, n: nat)
  {
    forall v :: 0 <= v < |previous| && v < n ==>
      forall x :: x in previous[v] ==> x < n && x < |previous| && v in previous[x]
  }

  lemma {:induction false} LinkedSymmetric(triangles: seq<Triangle>, n: nat, v: nat, x: nat)
    requires Linked(triangles, n, v, x)
    ensures Linked(triangles, n, x, v) && v < n && x < n
  {
    if !EdgeIn(triangles[|triangles| - 1], n, v, x) {
      LinkedSymmetric(triangles[..|triangles| - 1], n, v, x);
    }
  }

  /** One recorded pair, seen from the other end. */
  lemma {:induction false} RecordedBothWays(r: seq<seq<nat>>, previous: seq<seq<nat>>, triangles: seq<Triangle>, n: nat, v: nat, x: nat)
    requires IsAdjacency(r, previous, triangles, n) && SymmetricWithin(previous, n)
    requires v < |r| && x in r[v]
    ensures x < |r| && v in r[x]
  {
    if Linked(triangles, n, v, x) {
      LinkedSymmetric(triangles, n, v, x);
    } else {
      assert v < |previous| && x in previous[v];
    }
  }

  /** Every edge is recorded in both directions, so the adjacency is symmetric. */
  lemma AdjacencySymmetric(r: seq<seq<nat>>, previous: seq<seq<nat>>, triangles: seq<Triangle>, n: nat)
    requires IsAdjacency(r, previous, triangles, n) && SymmetricWithin(previous, n)
    ensures Symmetric(r)
  {
    forall v | 0 <= v < |r|
      ensures forall x :: x in r[v] ==> x < |r| && v in r[x]
    {
      forall x | x in r[v]
        ensures x < |r| && v in r[x]
      {
        RecordedBothWays(r, previous, triangles, n, v, x);
      }
    }
  }

  /** Every entry of every list names one of n vertices. */
  predicate ListsBelow(lists: seq<seq<nat>>, n: nat)
  {
    forall v :: 0 <= v < |lists| ==> forall j :: 0 <= j < |lists[v]| ==> lists[v][j] < n
  }

  /** Only in-range edges are recorded, so in-range previous lists give in-range lists. */
  lemma AdjacencyInRange(r: seq<seq<nat>>, previous: seq<seq<nat>>, triangles: seq<Triangle>, n: nat)
    requires IsAdjacency(r, previous, triangles, n) && ListsBelow(previous, n)
    ensures ListsBelow(r, n)
  {
    forall v, j | 0 <= v < |r| && 0 <= j < |r[v]|
      ensures r[v][j] < n
    {
      var x := r[v][j];
      assert x in r[v];
      if Linked(triangles, n, v, x) {
        LinkedSymmetric(triangles, n, v, x);
      } else {
        var i :| 0 <= i < |previous[v]| && previous[v][i] == x;
      }
    }
  }

  /** The result is determined by the previous lists and the triangles. */
  lemma AdjacencyDeterministic(r1: seq<seq<nat>>, r2: seq<seq<nat>>, previous: seq<seq<nat>>, triangles: seq<Triangle>, n: nat)
    requires IsAdjacency(r1, previous, triangles, n) && IsAdjacency(r2, previous, triangles, n)
    ensures r1 == r2
  {
    forall v | 0 <= v < n
      ensures r1[v] == r2[v]
    {
      SortedUniqueness(r1[v], r2[v]);
    }
  }

  /** Building the adjacency a second time from the same triangles changes nothing. */
  lemma AdjacencyIdempotent(r1: seq<seq<nat>>, r2: seq<seq<nat>>, previous: seq<seq<nat>>, triangles: seq<Triangle>, n: nat)
    requires IsAdjacency(r1, previous, triangles, n) && IsAdjacency(r2, r1, triangles, n)
    ensures r2 == r1
  {
    assert IsAdjacency(r1, r1, triangles, n);
    AdjacencyDeterministic(r1, r2, r1, triangles, n);
  }
}
