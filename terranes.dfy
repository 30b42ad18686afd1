/**
 * Terranes (Plate::fillTerranes): the connected groups of continental vertices
 * of one plate, found by a depth-first walk over the adjacency lists.
 *
 * The continental vertices of the plate form the set C. Each walk starts at an
 * unvisited vertex of C, pops vertices off a stack into the current terrane and
 * pushes their unvisited neighbours that are in C. Groups of at least 20
 * vertices are kept, each with its centroid projected onto the sphere.
 */
module Terranes {
  import opened Geometry
  import opened Options
  import opened Crusts
  import opened Plates
  import opened Adjacency

  /** The smallest group kept as a terrane. */
  const MinTerraneSize: nat := 20

  /** Vertex v has a continental crust record. */
  predicate IsContinental(crust: seq<Option<Crust>>, v: nat)
  {
    v < |crust| && crust[v].Some? && crust[v].value.ContinentalCrust?
  }

  /** The continental vertices among vs. */
  function ContinentalOf(vs: seq<nat>, crust: seq<Option<Crust>>): (c: set<nat>)
    ensures forall v :: v in c <==> v in vs && IsContinental(crust, v)
  {
    set v | v in vs && IsContinental(crust, v)
  }

  predicate Distinct(s: seq<nat>)
  {
    forall i, j :: 0 <= i < j < |s| ==> s[i] != s[j]
  }

  /** Every continental neighbour (in C) of every vertex of s is in t. */
  ghost predicate NeighboursIn(s: seq<nat>, t: set<nat>, c: set<nat>, neighbors: seq<seq<nat>>)
  {
    forall i :: 0 <= i < |s| && s[i] < |neighbors| ==>
      forall y :: y in neighbors[s[i]] && y in c ==> y in t
  }

  /** A group closed under adjacency restricted to C: nothing of C next to it is left out. */
  ghost predicate ClosedIn(s: seq<nat>, c: set<nat>, neighbors: seq<seq<nat>>)
  {
    forall i :: 0 <= i < |s| && s[i] < |neighbors| ==>
      forall y :: y in neighbors[s[i]] && y in c ==> y in s
  }

  /** x is a neighbour of some vertex of t. */
  ghost predicate AdjacentTo(x: nat, t: seq<nat>, neighbors: seq<seq<nat>>)
  {
    exists j :: 0 <= j < |t| && t[j] < |neighbors| && x in neighbors[t[j]]
  }

  /** Every vertex of t after the first is a neighbour of a vertex before it. */
  ghost predicate Connected(t: seq<nat>, neighbors: seq<seq<nat>>)
  {
    forall i :: 0 < i < |t| ==> AdjacentTo(t[i], t[..i], neighbors)
  }

  /** p is a walk along the adjacency lists. */
  ghost predicate IsPath(p: seq<nat>, neighbors: seq<seq<nat>>)
  {
    forall k :: 0 <= k < |p| - 1 ==> p[k] < |neighbors| && p[k + 1] in neighbors[p[k]]
  }

  /**
   * In a connected group, a walk along the adjacency lists leads from the first
   * vertex to vertex i without leaving the group.
   */
  ghost function PathTo(t: seq<nat>, neighbors: seq<seq<nat>>, i: nat): (p: seq<nat>)
    requires Connected(t, neighbors) && i < |t|
    ensures |p| > 0 && p[0] == t[0] && p[|p| - 1] == t[i]
    ensures IsPath(p, neighbors)
    ensures forall x :: x in p ==> x in t
    decreases i
  {
    if i == 0 then [t[0]]
    else
      assert AdjacentTo(t[i], t[..i], neighbors);
      var j :| 0 <= j < i && t[..i][j] < |neighbors| && t[i] in neighbors[t[..i][j]];
      var q := PathTo(t, neighbors, j);
      assert q[|q| - 1] == t[j];
      q + [t[i]]
  }

  /** A vertex next to a group stays next to it when the group grows. */
  lemma AdjacentGrows(x: nat, t: seq<nat>, y: nat, neighbors: seq<seq<nat>>)
    requires AdjacentTo(x, t, neighbors)
    ensures AdjacentTo(x, t + [y], neighbors)
  {
    var j :| 0 <= j < |t| && t[j] < |neighbors| && x in neighbors[t[j]];
    assert (t + [y])[j] == t[j];
  }

  /** Appending a neighbour of the group keeps it linked. */
  lemma {:induction false} ConnectedAppend(t: seq<nat>, y: nat, neighbors: seq<seq<nat>>)
    requires Connected(t, neighbors) && (t != [] ==> AdjacentTo(y, t, neighbors))
    ensures Connected(t + [y], neighbors)
  {
    var t' := t + [y];
    forall i | 0 < i < |t'|
      ensures AdjacentTo(t'[i], t'[..i], neighbors)
    {
      if i < |t| {
        assert t'[..i] == t[..i];
      } else {
        assert t'[..i] == t;
      }
    }
  }

  /** The loop that fills continentalVertices. */
  method ContinentalVertices(vs: seq<nat>, crust: seq<Option<Crust>>) returns (c: set<nat>)
    ensures c == ContinentalOf(vs, crust)
  {
    c := {};
    var i := 0;
    while i < |vs|
      invariant i <= |vs|
      invariant c == ContinentalOf(vs[..i], crust)
    {
      assert vs[..i + 1] == vs[..i] + [vs[i]];
      if vs[i] < |crust| && crust[vs[i]].Some? && crust[vs[i]].value.ContinentalCrust? {
        c := c + {vs[i]};
      }
      i := i + 1;
    }
    assert vs[..|vs|] == vs;
  }

  /** The elements of a sequence. */
  ghost function SetOf(s: seq<nat>): (r: set<nat>)
    ensures forall x :: x in r <==> x in s
  {
    set x | x in s
  }

  lemma SetOfConcat(a: seq<nat>, b: seq<nat>)
    ensures SetOf(a + b) == SetOf(a) + SetOf(b)
  {
  }

  lemma {:induction false} DistinctConcat(a: seq<nat>, b: seq<nat>)
    requires Distinct(a) && Distinct(b) && SetOf(a) !! SetOf(b)
    ensures Distinct(a + b)
  {
    forall i, j | 0 <= i < j < |a + b|
      ensures (a + b)[i] != (a + b)[j]
    {
      if i < |a| && j >= |a| {
        assert (a + b)[i] in SetOf(a) && (a + b)[j] in SetOf(b);
      }
    }
  }

  /**
   * What the neighbour loop of one popped vertex leaves: the neighbours in C not
   * yet visited are marked visited and pushed, once each, and every neighbour
   * in C is then visited.
   */
  ghost predicate Pushed(nbs: seq<nat>, c: set<nat>, visited: set<nat>, pushed: seq<nat>, visited': set<nat>)
  {
    && visited' == visited + SetOf(pushed) && visited' <= c
    && SetOf(pushed) !! visited && Distinct(pushed)
    && (forall y :: y in nbs && y in c ==> y in visited')
    && (forall y :: y in pushed ==> y in nbs)
  }

  /** The neighbour loop of one popped vertex, in list order. */
  method PushNeighbours(nbs: seq<nat>, c: set<nat>, visited: set<nat>) returns (pushed: seq<nat>, visited': set<nat>)
    requires visited <= c
    ensures Pushed(nbs, c, visited, pushed, visited')
  {
    pushed, visited' := [], visited;
    var j := 0;
    while j < |nbs|
      invariant j <= |nbs|
      invariant visited' == visited + SetOf(pushed) && visited' <= c
      invariant SetOf(pushed) !! visited && Distinct(pushed)
      invariant forall k :: 0 <= k < j && nbs[k] in c ==> nbs[k] in visited'
      invariant forall y :: y in pushed ==> y in nbs
    {
      var nb := nbs[j];
      if nb !in visited' && nb in c {
        DistinctConcat(pushed, [nb]);
        SetOfConcat(pushed, [nb]);
        assert SetOf([nb]) == {nb};
        visited' := visited' + {nb};
        pushed := pushed + [nb];
      }
      j := j + 1;
    }
  }

  /** What a walk from start leaves behind. */
  ghost predicate Walked(terrane: seq<nat>, visited: set<nat>, c: set<nat>, neighbors: seq<seq<nat>>, visited0: set<nat>)
  {
    && visited == visited0 + SetOf(terrane) && visited <= c
    && SetOf(terrane) !! visited0
    && Distinct(terrane)
    && NeighboursIn(terrane, visited, c, neighbors)
    && Connected(terrane, neighbors)
  }

  /**
   * The state of a walk from start: reached vertices (terrane) and pending ones
   * (stack) are in C, disjoint, repeat nothing, were not visited before the
   * walk, and together with visited0 make up visited; every continental
   * neighbour of a reached vertex is visited; each reached vertex after the
   * first, and once the walk has begun each pending one, is a neighbour of a
   * reached vertex.
   */
  ghost predicate Exploring(start: nat, terrane: seq<nat>, stack: seq<nat>, visited: set<nat>,
                            c: set<nat>, neighbors: seq<seq<nat>>, visited0: set<nat>)
  {
    Frontier(start, terrane, stack, visited, c, neighbors, visited0) && Spreading(terrane, stack, neighbors)
  }

  /** The bookkeeping part of the walk's state. */
  ghost predicate Frontier(start: nat, terrane: seq<nat>, stack: seq<nat>, visited: set<nat>,
                           c: set<nat>, neighbors: seq<seq<nat>>, visited0: set<nat>)
  {
    && visited <= c
    && visited == visited0 + SetOf(terrane) + SetOf(stack)
    && SetOf(terrane) !! visited0 && SetOf(stack) !! visited0 && SetOf(stack) !! SetOf(terrane)
    && Distinct(terrane) && Distinct(stack)
    && (terrane == [] ==> stack == [start])
    && (terrane != [] ==> terrane[0] == start)
    && NeighboursIn(terrane, visited, c, neighbors)
  }

  /** The terrane is connected and, once it has a vertex, every pending vertex is next to it. */
  ghost predicate Spreading(terrane: seq<nat>, stack: seq<nat>, neighbors: seq<seq<nat>>)
  {
    && Connected(terrane, neighbors)
    && (terrane != [] ==> forall x :: x in stack ==> AdjacentTo(x, terrane, neighbors))
  }

  /**
   * One iteration of the walk: pop the top of the stack, add it to the terrane
   * and push its unvisited continental neighbours. Either more vertices become
   * visited or the stack shrinks.
   */
  method ExploreStep(start: nat, c: set<nat>, neighbors: seq<seq<nat>>, visited0: set<nat>,
                     terrane: seq<nat>, stack: seq<nat>, visited: set<nat>)
    returns (terrane': seq<nat>, stack': seq<nat>, visited': set<nat>)
    requires stack != [] && Exploring(start, terrane, stack, visited, c, neighbors, visited0)
    ensures Exploring(start, terrane', stack', visited', c, neighbors, visited0)
    ensures terrane' == terrane + [stack[|stack| - 1]]
    ensures c - visited' < c - visited || (visited' == visited && |stack'| < |stack|)
  {
    var current := stack[|stack| - 1];
    var pushed: seq<nat> := [];
    visited' := visited;
    if current < |neighbors| {
      pushed, visited' := PushNeighbours(neighbors[current], c, visited);
    }
    PopFrontier(start, c, neighbors, visited0, terrane, stack, visited, pushed, visited');
    PopConnected(terrane, stack, pushed, neighbors);
    terrane' := terrane + [current];
    stack' := stack[..|stack| - 1] + pushed;
  }

  /**
   * Popping the top of the stack and pushing its new neighbours keeps the
   * bookkeeping of the walk; either more vertices become visited or nothing is
   * pushed.
   */
  lemma {:induction false} PopFrontier(start: nat, c: set<nat>, neighbors: seq<seq<nat>>, visited0: set<nat>,
                                       terrane: seq<nat>, stack: seq<nat>, visited: set<nat>,
                                       pushed: seq<nat>, visited': set<nat>)
    requires stack != [] && Frontier(start, terrane, stack, visited, c, neighbors, visited0)
    requires stack[|stack| - 1] < |neighbors| ==> Pushed(neighbors[stack[|stack| - 1]], c, visited, pushed, visited')
    requires stack[|stack| - 1] >= |neighbors| ==> pushed == [] && visited' == visited
    ensures Frontier(start, terrane + [stack[|stack| - 1]], stack[..|stack| - 1] + pushed, visited', c, neighbors, visited0)
    ensures c - visited' < c - visited || (visited' == visited && pushed == [])
  {
    var current := stack[|stack| - 1];
    var rest := stack[..|stack| - 1];
    assert stack == rest + [current];
    SetOfConcat(rest, [current]);
    SetOfConcat(terrane, [current]);
    assert SetOf([current]) == {current};
    DistinctConcat(terrane, [current]);
    if pushed != [] {
      assert pushed[0] in SetOf(pushed);
      assert pushed[0] in c - visited && pushed[0] !in c - visited';
    }
    DistinctConcat(rest, pushed);
    SetOfConcat(rest, pushed);
  }

  /**
   * Popping the top of the stack onto a connected terrane keeps it connected,
   * and the rest of the stack and the neighbours pushed for the popped vertex
   * are next to the grown terrane.
   */
  lemma {:induction false} PopConnected(terrane: seq<nat>, stack: seq<nat>, pushed: seq<nat>, neighbors: seq<seq<nat>>)
    requires stack != [] && Spreading(terrane, stack, neighbors)
    requires terrane == [] ==> |stack| == 1
    requires pushed != [] ==> stack[|stack| - 1] < |neighbors| && forall y :: y in pushed ==> y in neighbors[stack[|stack| - 1]]
    ensures Spreading(terrane + [stack[|stack| - 1]], stack[..|stack| - 1] + pushed, neighbors)
  {
    var current := stack[|stack| - 1];
    var rest := stack[..|stack| - 1];
    var t' := terrane + [current];
    ConnectedAppend(terrane, current, neighbors);
    forall x | x in rest + pushed
      ensures AdjacentTo(x, t', neighbors)
    {
      if x in pushed {
        assert t'[|terrane|] == current;
      } else {
        assert x in stack;
        AdjacentGrows(x, terrane, current, neighbors);
      }
    }
  }

  /**
   * One walk from start. The vertices it reaches are those it adds to visited;
   * each is in C, was not visited before, and appears once; every neighbour in C
   * of every reached vertex ends visited.
   */
  method Explore(start: nat, c: set<nat>, neighbors: seq<seq<nat>>, visited0: set<nat>)
    returns (terrane: seq<nat>, visited: set<nat>)
    requires start in c && start !in visited0 && visited0 <= c
    ensures Walked(terrane, visited, c, neighbors, visited0)
    ensures |terrane| > 0 && terrane[0] == start
  {
    terrane := [];
    var stack: seq<nat> := [start];
    visited := visited0 + {start};
    while stack != []
      invariant Exploring(start, terrane, stack, visited, c, neighbors, visited0)
      decreases c - visited, |stack|
    {
      terrane, stack, visited := ExploreStep(start, c, neighbors, visited0, terrane, stack, visited);
    }
  }

  /** The sum of the positions of the listed vertices that exist. */
  function SumIn(t: seq<nat>, vertices: seq<Vec3>): Vec3
  {
    if t == [] then Zero
    else
      var s := SumIn(t[..|t| - 1], vertices);
      var v := t[|t| - 1];
      if v < |vertices| then Add(s, vertices[v]) else s
  }

  /** The mean position, normalised and scaled to the planet's radius. */
  function TerraneCentroid(t: seq<nat>, vertices: seq<Vec3>, radius: real, m: MathLib): Vec3
    requires |t| > 0
  {
    Scale(Normalize(Scale(SumIn(t, vertices), 1.0 / (|t| as real)), m), radius)
  }

  /** A centroid whose mean is not the origin lies on the sphere of the planet's radius. */
  lemma CentroidOnSphere(t: seq<nat>, vertices: seq<Vec3>, radius: real, m: MathLib)
    requires |t| > 0 && Lawful(m) && Scale(SumIn(t, vertices), 1.0 / (|t| as real)) != Zero
    ensures SqLen(TerraneCentroid(t, vertices, radius, m)) == Sq(radius)
  {
    var mean := Scale(SumIn(t, vertices), 1.0 / (|t| as real));
    NormalizeIsUnit(mean, m);
    SqLenScale(Normalize(mean, m), radius);
  }

  /** The centroid loop: accumulate, divide by the count, normalise, scale. */
  method ComputeCentroid(t: seq<nat>, vertices: seq<Vec3>, radius: real, m: MathLib) returns (centroid: Vec3)
    requires |t| > 0
    ensures centroid == TerraneCentroid(t, vertices, radius, m)
  {
    var sum := Zero;
    var i := 0;
    while i < |t|
      invariant i <= |t|
      invariant sum == SumIn(t[..i], vertices)
    {
      assert t[..i + 1][..i] == t[..i];
      if t[i] < |vertices| {
        sum := Add(sum, vertices[t[i]]);
      }
      i := i + 1;
    }
    assert t[..|t|] == t;
    centroid := Scale(Normalize(Scale(sum, 1.0 / (|t| as real)), m), radius);
  }

  /** All vertices of all groups. */
  ghost function Union(gs: seq<seq<nat>>): set<nat>
  {
    if gs == [] then {} else Union(gs[..|gs| - 1]) + SetOf(gs[|gs| - 1])
  }

  lemma {:induction false} UnionAppend(gs: seq<seq<nat>>, g: seq<nat>)
    ensures Union(gs + [g]) == Union(gs) + SetOf(g)
  {
    assert (gs + [g])[..|gs|] == gs;
  }

  lemma {:induction false} UnionMember(gs: seq<seq<nat>>, g: nat)
    requires g < |gs|
    ensures SetOf(gs[g]) <= Union(gs)
  {
    if g < |gs| - 1 {
      UnionMember(gs[..|gs| - 1], g);
    }
  }

  /** Each group shares no vertex with the groups before it. */
  ghost predicate DisjointFromEarlier(gs: seq<seq<nat>>)
  {
    forall g :: 0 <= g < |gs| ==> SetOf(gs[g]) !! Union(gs[..g])
  }

  lemma {:induction false} PairwiseDisjoint(gs: seq<seq<nat>>)
    requires DisjointFromEarlier(gs)
    ensures NoSharedVertex(gs)
  {
    forall g1, g2, v | 0 <= g1 < g2 < |gs| && v in gs[g1] && v in gs[g2]
      ensures false
    {
      UnionMember(gs[..g2], g1);
      assert v in Union(gs[..g2]);
    }
  }

  /** The groups of at least MinTerraneSize vertices, in order. */
  ghost function Large(gs: seq<seq<nat>>): seq<seq<nat>>
  {
    if gs == [] then []
    else
      var rest := Large(gs[..|gs| - 1]);
      if |gs[|gs| - 1]| >= MinTerraneSize then rest + [gs[|gs| - 1]] else rest
  }

  lemma {:induction false} LargeAppend(gs: seq<seq<nat>>, g: seq<nat>)
    ensures Large(gs + [g]) == Large(gs) + (if |g| >= MinTerraneSize then [g] else [])
  {
    assert (gs + [g])[..|gs|] == gs;
  }

  /** The large groups are groups, and they are large. */
  lemma {:induction false} LargeMembers(gs: seq<seq<nat>>)
    ensures forall t :: 0 <= t < |Large(gs)| ==> Large(gs)[t] in gs && |Large(gs)[t]| >= MinTerraneSize
  {
    if gs != [] {
      var prefix := gs[..|gs| - 1];
      assert gs == prefix + [gs[|gs| - 1]];
      LargeMembers(prefix);
    }
  }

  lemma {:induction false} LargeUnion(gs: seq<seq<nat>>)
    ensures Union(Large(gs)) <= Union(gs)
  {
    if gs != [] {
      var prefix := gs[..|gs| - 1];
      var g := gs[|gs| - 1];
      LargeUnion(prefix);
      if |g| >= MinTerraneSize {
        UnionAppend(Large(prefix), g);
      }
    }
  }

  /** Dropping the small groups keeps each group disjoint from those before it. */
  lemma {:induction false} LargeDisjoint(gs: seq<seq<nat>>)
    requires DisjointFromEarlier(gs)
    ensures DisjointFromEarlier(Large(gs))
  {
    if gs != [] {
      var prefix := gs[..|gs| - 1];
      var g := gs[|gs| - 1];
      assert DisjointFromEarlier(prefix) by {
        forall i | 0 <= i < |prefix|
          ensures SetOf(prefix[i]) !! Union(prefix[..i])
        {
          assert prefix[..i] == gs[..i];
        }
      }
      LargeDisjoint(prefix);
      var l := Large(prefix);
      if |g| >= MinTerraneSize {
        LargeUnion(prefix);
        assert SetOf(g) !! Union(prefix) by {
          assert gs[..|gs| - 1] == prefix;
        }
        forall i | 0 <= i < |l + [g]|
          ensures SetOf((l + [g])[i]) !! Union((l + [g])[..i])
        {
          if i < |l| {
            assert (l + [g])[..i] == l[..i];
          } else {
            assert (l + [g])[..i] == l;
          }
        }
      }
    }
  }

  /** A group reached by a walk that starts outside every earlier group is closed, given symmetric adjacency. */
  lemma {:induction false} WalkClosed(t: seq<nat>, visited0: set<nat>, visited: set<nat>, c: set<nat>, neighbors: seq<seq<nat>>)
    requires Symmetric(neighbors)
    requires Walked(t, visited, c, neighbors, visited0)
    requires VisitedClosed(visited0, c, neighbors)
    ensures ClosedIn(t, c, neighbors)
  {
    forall i | 0 <= i < |t| && t[i] < |neighbors|
      ensures forall y :: y in neighbors[t[i]] && y in c ==> y in t
    {
      forall y | y in neighbors[t[i]] && y in c
        ensures y in t
      {
        if y in visited0 {
          assert false;
        }
      }
    }
  }

  /** Every neighbour in C of a visited vertex is visited. */
  ghost predicate VisitedClosed(visited: set<nat>, c: set<nat>, neighbors: seq<seq<nat>>)
  {
    forall x :: x in visited && x < |neighbors| ==> forall y :: y in neighbors[x] && y in c ==> y in visited
  }

  /** What the walks so far have established about the groups they found. */
  ghost predicate GroupsFound(groups: seq<seq<nat>>, visited: set<nat>, c: set<nat>, neighbors: seq<seq<nat>>)
  {
    && visited == Union(groups) && visited <= c
    && VisitedClosed(visited, c, neighbors)
    && DisjointFromEarlier(groups)
    && (forall g :: 0 <= g < |groups| ==> Distinct(groups[g]))
    && AllConnected(groups, neighbors)
    && (Symmetric(neighbors) ==> forall g :: 0 <= g < |groups| ==> ClosedIn(groups[g], c, neighbors))
  }

  /** A new walk keeps GroupsFound. */
  lemma {:induction false} GroupsStep(groups: seq<seq<nat>>, visited: set<nat>, terrane: seq<nat>, visited': set<nat>,
                                      c: set<nat>, neighbors: seq<seq<nat>>)
    requires GroupsFound(groups, visited, c, neighbors)
    requires Walked(terrane, visited', c, neighbors, visited)
    ensures GroupsFound(groups + [terrane], visited', c, neighbors)
  {
    UnionAppend(groups, terrane);
    var gs := groups + [terrane];
    forall g | 0 <= g < |gs|
      ensures SetOf(gs[g]) !! Union(gs[..g])
    {
      if g < |groups| {
        assert gs[..g] == groups[..g];
      } else {
        assert gs[..g] == groups;
      }
    }
    forall x | x in visited' && x < |neighbors|
      ensures forall y :: y in neighbors[x] && y in c ==> y in visited'
    {
      if x in terrane {
        var i :| 0 <= i < |terrane| && terrane[i] == x;
      }
    }
    if Symmetric(neighbors) {
      WalkClosed(terrane, visited, visited', c, neighbors);
    }
  }

  /** Each kept terrane is large enough and paired with its centroid. */
  predicate Measured(terranes: seq<seq<nat>>, centroids: seq<Vec3>, vertices: seq<Vec3>, radius: real, m: MathLib)
  {
    && |terranes| == |centroids|
    && forall t :: 0 <= t < |terranes| ==>
         |terranes[t]| >= MinTerraneSize && centroids[t] == TerraneCentroid(terranes[t], vertices, radius, m)
  }

  lemma MeasuredAppend(terranes: seq<seq<nat>>, centroids: seq<Vec3>, terrane: seq<nat>, centroid: Vec3,
                       vertices: seq<Vec3>, radius: real, m: MathLib)
    requires Measured(terranes, centroids, vertices, radius, m)
    requires |terrane| >= MinTerraneSize && centroid == TerraneCentroid(terrane, vertices, radius, m)
    ensures Measured(terranes + [terrane], centroids + [centroid], vertices, radius, m)
  {
  }

  /**
   * The terranes and centroids a plate with vertex list vs may hold: the lists
   * are aligned; each terrane has at least MinTerraneSize distinct continental
   * vertices of the plate and its centroid; each is connected along the
   * adjacency lists; no two terranes share a vertex; with symmetric adjacency
   * each is closed under continental adjacency; and a plate without continental
   * vertices has none.
   */
  ghost predicate TerranesOf(vs: seq<nat>, crust: seq<Option<Crust>>, neighbors: seq<seq<nat>>,
                             vertices: seq<Vec3>, radius: real, m: MathLib,
                             terranes: seq<seq<nat>>, centroids: seq<Vec3>)
  {
    && Measured(terranes, centroids, vertices, radius, m)
    && Grouped(vs, crust, neighbors, terranes)
  }

  /**
   * The terranes lie among the continental vertices of vs, no vertex is in two
   * of them, none repeats a vertex, each is connected, each is closed under
   * continental adjacency when adjacency is symmetric, and there are none
   * without continental crust.
   */
  ghost predicate Grouped(vs: seq<nat>, crust: seq<Option<Crust>>, neighbors: seq<seq<nat>>, terranes: seq<seq<nat>>)
  {
    && MembersContinental(terranes, vs, crust)
    && NoSharedVertex(terranes)
    && AllDistinct(terranes)
    && AllConnected(terranes, neighbors)
    && (Symmetric(neighbors) ==> AllClosed(terranes, ContinentalOf(vs, crust), neighbors))
    && (ContinentalOf(vs, crust) == {} ==> terranes == [])
  }

  /** Every vertex of every group is a continental vertex of vs. */
  predicate MembersContinental(gs: seq<seq<nat>>, vs: seq<nat>, crust: seq<Option<Crust>>)
  {
    forall t, v :: 0 <= t < |gs| && v in gs[t] ==> v in vs && IsContinental(crust, v)
  }

  /** No vertex lies in two different groups. */
  predicate NoSharedVertex(gs: seq<seq<nat>>)
  {
    forall t1, t2, v :: 0 <= t1 < |gs| && 0 <= t2 < |gs| && v in gs[t1] && v in gs[t2] ==> t1 == t2
  }

  /** No group repeats a vertex. */
  predicate AllDistinct(gs: seq<seq<nat>>)
  {
    forall t :: 0 <= t < |gs| ==> Distinct(gs[t])
  }

  /** Every group is connected along the adjacency lists. */
  ghost predicate AllConnected(gs: seq<seq<nat>>, neighbors: seq<seq<nat>>)
  {
    forall t :: 0 <= t < |gs| ==> Connected(gs[t], neighbors)
  }

  /** Every group is closed under adjacency within c. */
  ghost predicate AllClosed(gs: seq<seq<nat>>, c: set<nat>, neighbors: seq<seq<nat>>)
  {
    forall t :: 0 <= t < |gs| ==> ClosedIn(gs[t], c, neighbors)
  }

  /** What the finished walks imply about the groups kept as terranes. */
  lemma TerranesFromGroups(groups: seq<seq<nat>>, c: set<nat>, neighbors: seq<seq<nat>>,
                           vs: seq<nat>, crust: seq<Option<Crust>>, vertices: seq<Vec3>, radius: real, m: MathLib,
                           centroids: seq<Vec3>)
    requires GroupsFound(groups, c, c, neighbors) && c == ContinentalOf(vs, crust) && c != {}
    requires Measured(Large(groups), centroids, vertices, radius, m)
    ensures TerranesOf(vs, crust, neighbors, vertices, radius, m, Large(groups), centroids)
    ensures forall g1, g2, v :: 0 <= g1 < |groups| && 0 <= g2 < |groups| && v in groups[g1] && v in groups[g2] ==> g1 == g2
  {
    LargeGroupsKept(groups, c, neighbors, vs, crust);
  }

  /** The kept groups lie among the continental vertices, are disjoint and distinct, and are closed under adjacency. */
  lemma LargeGroupsKept(groups: seq<seq<nat>>, c: set<nat>, neighbors: seq<seq<nat>>,
                        vs: seq<nat>, crust: seq<Option<Crust>>)
    requires GroupsFound(groups, c, c, neighbors) && c == ContinentalOf(vs, crust) && c != {}
    ensures Grouped(vs, crust, neighbors, Large(groups))
    ensures forall g1, g2, v :: 0 <= g1 < |groups| && 0 <= g2 < |groups| && v in groups[g1] && v in groups[g2] ==> g1 == g2
  {
    assert Union(groups) == ContinentalOf(vs, crust);
    assert DisjointFromEarlier(groups);
    PairwiseDisjoint(groups);
    KeptGrouped(groups, c, neighbors, vs, crust);
  }

  /** The walk facts Grouped needs, each carried over from all groups to the kept ones. */
  lemma KeptGrouped(groups: seq<seq<nat>>, c: set<nat>, neighbors: seq<seq<nat>>, vs: seq<nat>, crust: seq<Option<Crust>>)
    requires c == ContinentalOf(vs, crust) && c != {} && Union(groups) == c
    requires DisjointFromEarlier(groups)
    requires forall g :: 0 <= g < |groups| ==> Distinct(groups[g])
    requires AllConnected(groups, neighbors)
    requires Symmetric(neighbors) ==> forall g :: 0 <= g < |groups| ==> ClosedIn(groups[g], c, neighbors)
    ensures Grouped(vs, crust, neighbors, Large(groups))
  {
    KeptDisjointContinental(groups, vs, crust);
    LargeDistinctClosed(groups, c, neighbors);
  }

  /** The kept groups hold only continental vertices of vs, and no two of them share a vertex. */
  lemma KeptDisjointContinental(groups: seq<seq<nat>>, vs: seq<nat>, crust: seq<Option<Crust>>)
    requires Union(groups) == ContinentalOf(vs, crust) && DisjointFromEarlier(groups)
    ensures MembersContinental(Large(groups), vs, crust)
    ensures NoSharedVertex(Large(groups))
  {
    LargeContinental(groups, vs, crust);
    LargeDisjoint(groups);
    PairwiseDisjoint(Large(groups));
  }

  /** Every vertex of a kept group is one of the continental vertices the walks covered. */
  lemma LargeContinental(groups: seq<seq<nat>>, vs: seq<nat>, crust: seq<Option<Crust>>)
    requires Union(groups) == ContinentalOf(vs, crust)
    ensures MembersContinental(Large(groups), vs, crust)
  {
    var ts := Large(groups);
    LargeMembers(groups);
    forall t, v | 0 <= t < |ts| && v in ts[t]
      ensures v in vs && IsContinental(crust, v)
    {
      var g :| 0 <= g < |groups| && groups[g] == ts[t];
      UnionMember(groups, g);
      assert v in SetOf(groups[g]);
    }
  }

  /** The kept groups repeat no vertex, are connected and, with symmetric adjacency, are closed in C, as all groups are. */
  lemma LargeDistinctClosed(groups: seq<seq<nat>>, c: set<nat>, neighbors: seq<seq<nat>>)
    requires forall g :: 0 <= g < |groups| ==> Distinct(groups[g])
    requires AllConnected(groups, neighbors)
    requires Symmetric(neighbors) ==> forall g :: 0 <= g < |groups| ==> ClosedIn(groups[g], c, neighbors)
    ensures AllDistinct(Large(groups)) && AllConnected(Large(groups), neighbors)
    ensures Symmetric(neighbors) ==> AllClosed(Large(groups), c, neighbors)
  {
    var ts := Large(groups);
    LargeMembers(groups);
    forall t | 0 <= t < |ts|
      ensures Distinct(ts[t]) && Connected(ts[t], neighbors) && (Symmetric(neighbors) ==> ClosedIn(ts[t], c, neighbors))
    {
      var g :| 0 <= g < |groups| && groups[g] == ts[t];
    }
  }

  /**
   * fillTerranes: the terranes of a plate and their centroids, in lockstep.
   * The ghost result lists every group the walks found; together they cover the
   * continental vertices of the plate, they are pairwise disjoint, each is
   * connected along the adjacency lists, and with
   * symmetric adjacency each is closed under continental adjacency. The
   * terranes are exactly the groups of at least MinTerraneSize vertices.
   */
  method FillTerranes(plate: Plate, crust: seq<Option<Crust>>, neighbors: seq<seq<nat>>,
                      vertices: seq<Vec3>, radius: real, m: MathLib)
    returns (terranes: seq<seq<nat>>, centroids: seq<Vec3>, ghost groups: seq<seq<nat>>)
    ensures TerranesOf(plate.vertices, crust, neighbors, vertices, radius, m, terranes, centroids)
    ensures terranes == Large(groups)
    ensures Union(groups) == ContinentalOf(plate.vertices, crust)
    ensures forall g1, g2, v :: 0 <= g1 < |groups| && 0 <= g2 < |groups| && v in groups[g1] && v in groups[g2] ==> g1 == g2
    ensures AllConnected(groups, neighbors)
    ensures Symmetric(neighbors) ==> forall g :: 0 <= g < |groups| ==> ClosedIn(groups[g], ContinentalOf(plate.vertices, crust), neighbors)
  {
    terranes, centroids, groups := [], [], [];
    var c := ContinentalVertices(plate.vertices, crust);
    if c == {} {
      return;
    }
    var remaining := c;
    var visited: set<nat> := {};
    while remaining != {}
      invariant remaining <= c && c - remaining <= visited
      invariant GroupsFound(groups, visited, c, neighbors)
      invariant c == ContinentalOf(plate.vertices, crust)
      invariant terranes == Large(groups) && Measured(terranes, centroids, vertices, radius, m)
      decreases |remaining|
    {
      var start :| start in remaining;
      remaining := remaining - {start};
      if start !in visited {
        var terrane, visited' := Explore(start, c, neighbors, visited);
        GroupsStep(groups, visited, terrane, visited', c, neighbors);
        LargeAppend(groups, terrane);
        groups := groups + [terrane];
        if |terrane| >= MinTerraneSize {
          var centroid := ComputeCentroid(terrane, vertices, radius, m);
          MeasuredAppend(terranes, centroids, terrane, centroid, vertices, radius, m);
          terranes := terranes + [terrane];
          centroids := centroids + [centroid];
        }
        visited := visited';
      }
    }
    assert visited == c;
    TerranesFromGroups(groups, c, neighbors, plate.vertices, crust, vertices, radius, m, centroids);
  }
}
