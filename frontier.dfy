/**
 * Plate frontiers (Planet::findFrontierVertices and
 * Planet::fillClosestFrontierVertices).
 *
 * A vertex is on the frontier of its plate when one of its neighbours belongs
 * to another plate. Each plate keeps a map from its frontier vertices to
 * buckets; the second pass moves every vertex of the plate into the bucket of
 * its nearest frontier vertex, visiting the keys in increasing order so that
 * the smallest key wins a tie.
 */
module Frontiers {
  import opened Geometry
  import opened Plates
  import opened Search
  import opened Adjacency

  // ---------------------------------------------------------------------------
  // Frontier detection

  /** What findFrontierVertices indexes without checking. */
  predicate FrontierInputs(plates: seq<Plate>, owner: seq<nat>, neighbors: seq<seq<nat>>, n: nat)
  {
    && n <= |owner| && n <= |neighbors|
    && (forall i :: 0 <= i < n ==> owner[i] < |plates|)
    && (forall i :: 0 <= i < n ==> forall j :: 0 <= j < |neighbors[i]| ==> neighbors[i][j] < |owner|)
  }

  /** Some neighbour of vertex i is owned by another plate. */
  predicate OnFrontier(owner: seq<nat>, neighbors: seq<seq<nat>>, i: nat)
    requires i < |owner| && i < |neighbors|
    requires forall j :: 0 <= j < |neighbors[i]| ==> neighbors[i][j] < |owner|
  {
    exists j :: 0 <= j < |neighbors[i]| && owner[neighbors[i][j]] != owner[i]
  }

  /** The neighbour scan of one vertex, stopping at the first neighbour on another plate. */
  method HasForeignNeighbor(owner: seq<nat>, neighbors: seq<seq<nat>>, i: nat) returns (b: bool)
    requires i < |owner| && i < |neighbors|
    requires forall j :: 0 <= j < |neighbors[i]| ==> neighbors[i][j] < |owner|
    ensures b <==> OnFrontier(owner, neighbors, i)
  {
    var nbs := neighbors[i];
    var j := 0;
    while j < |nbs|
      invariant j <= |nbs|
      invariant forall k :: 0 <= k < j ==> owner[nbs[k]] == owner[i]
    {
      if owner[nbs[j]] != owner[i] {
        return true;
      }
      j := j + 1;
    }
    return false;
  }

  /** Vertex k is among the first n vertices, is owned by plate p and lies on its frontier. */
  predicate NewFrontierKey(owner: seq<nat>, neighbors: seq<seq<nat>>, n: nat, p: nat, k: nat)
    requires n <= |owner| && n <= |neighbors|
    requires forall i :: 0 <= i < n ==> forall j :: 0 <= j < |neighbors[i]| ==> neighbors[i][j] < |owner|
  {
    k < n && owner[k] == p && OnFrontier(owner, neighbors, k)
  }

  /**
   * Marking the frontier: each frontier vertex becomes a key of its own plate's
   * map with an empty bucket (replacing any bucket it had); no key is removed and
   * nothing else about any plate changes.
   */
  method FindFrontier(plates: seq<Plate>, owner: seq<nat>, neighbors: seq<seq<nat>>, n: nat) returns (r: seq<Plate>)
    requires FrontierInputs(plates, owner, neighbors, n)
    ensures |r| == |plates|
    ensures forall p :: 0 <= p < |r| ==>
      && r[p].vertices == plates[p].vertices
      && r[p].rotationAxis == plates[p].rotationAxis && r[p].velocity == plates[p].velocity
      && r[p].terranes == plates[p].terranes && r[p].terraneCentroids == plates[p].terraneCentroids
    ensures forall p, k :: 0 <= p < |r| ==>
      (k in r[p].closestFrontier <==> k in plates[p].closestFrontier || NewFrontierKey(owner, neighbors, n, p, k))
    ensures forall p, k :: 0 <= p < |r| && k in r[p].closestFrontier ==>
      r[p].closestFrontier[k] == if NewFrontierKey(owner, neighbors, n, p, k) then [] else plates[p].closestFrontier[k]
  {
    r := plates;
    var i := 0;
    while i < n
      invariant i <= n && |r| == |plates|
      invariant forall p :: 0 <= p < |r| ==>
        && r[p].vertices == plates[p].vertices
        && r[p].rotationAxis == plates[p].rotationAxis && r[p].velocity == plates[p].velocity
        && r[p].terranes == plates[p].terranes && r[p].terraneCentroids == plates[p].terraneCentroids
      invariant forall p, k :: 0 <= p < |r| ==>
        (k in r[p].closestFrontier <==> k in plates[p].closestFrontier || NewFrontierKey(owner, neighbors, i, p, k))
      invariant forall p, k :: 0 <= p < |r| && k in r[p].closestFrontier ==>
        r[p].closestFrontier[k] == if NewFrontierKey(owner, neighbors, i, p, k) then [] else plates[p].closestFrontier[k]
    {
      var b := HasForeignNeighbor(owner, neighbors, i);
      if b {
        var q := owner[i];
        r := r[q := r[q].(closestFrontier := r[q].closestFrontier[i := []])];
      }
      i := i + 1;
    }
  }

  // ---------------------------------------------------------------------------
  // Frontier buckets

  /** The keys below n of a std::map, in iteration order: increasing. */
  function KeysBelow(keys: set<nat>, n: nat): (s: seq<nat>)
    ensures StrictlySorted(s)
    ensures forall x :: x in s <==> x in keys && x < n
    ensures KeysIn(s, n)
  {
    if n == 0 then []
    else
      var s := KeysBelow(keys, n - 1);
      if n - 1 in keys then s + [n - 1] else s
  }

  /** Distances from vertex v to each key, in key order. */
  function Distances(vertices: seq<Vec3>, keys: seq<nat>, v: nat, m: MathLib): (d: seq<real>)
    requires v < |vertices| && forall j :: 0 <= j < |keys| ==> keys[j] < |vertices|
    ensures |d| == |keys|
  {
    seq(|keys|, j requires 0 <= j < |keys| => Length(Sub(vertices[v], vertices[keys[j]]), m))
  }

  /** The first key at the least distance from v. */
  function NearestKey(vertices: seq<Vec3>, keys: seq<nat>, v: nat, m: MathLib): (k: nat)
    requires |keys| > 0
    requires v < |vertices| && forall j :: 0 <= j < |keys| ==> keys[j] < |vertices|
    ensures k in keys
  {
    keys[FirstMin(Distances(vertices, keys, v, m))]
  }

  /**
   * The nearest key is at the least distance from v, and every key listed before
   * it is strictly farther.
   */
  lemma NearestKeyIsNearest(vertices: seq<Vec3>, keys: seq<nat>, v: nat, m: MathLib)
    requires |keys| > 0
    requires v < |vertices| && forall j :: 0 <= j < |keys| ==> keys[j] < |vertices|
    ensures exists i :: (0 <= i < |keys| && keys[i] == NearestKey(vertices, keys, v, m)
      && (forall j :: 0 <= j < |keys| ==> Distances(vertices, keys, v, m)[i] <= Distances(vertices, keys, v, m)[j])
      && (forall j :: 0 <= j < i ==> Distances(vertices, keys, v, m)[i] < Distances(vertices, keys, v, m)[j]))
  {
    var i := FirstMin(Distances(vertices, keys, v, m));
    assert keys[i] == NearestKey(vertices, keys, v, m);
  }

  predicate KeysIn(keys: seq<nat>, n: nat)
  {
    forall j :: 0 <= j < |keys| ==> keys[j] < n
  }

  predicate AllIn(vs: seq<nat>, n: nat)
  {
    forall i :: 0 <= i < |vs| ==> vs[i] < n
  }

  /** The vertices of vs, in their order, whose nearest key is k. */
  function Bucket(vs: seq<nat>, keys: seq<nat>, vertices: seq<Vec3>, m: MathLib, k: nat): (b: seq<nat>)
    requires |keys| > 0 && KeysIn(keys, |vertices|) && AllIn(vs, |vertices|)
    ensures forall x :: x in b <==> x in vs && NearestKey(vertices, keys, x, m) == k
    ensures |b| <= |vs|
  {
    if vs == [] then []
    else
      var rest := Bucket(vs[..|vs| - 1], keys, vertices, m, k);
      var last := vs[|vs| - 1];
      assert forall x :: x in vs <==> x in vs[..|vs| - 1] || x == last by {
        assert vs == vs[..|vs| - 1] + [last];
      }
      if NearestKey(vertices, keys, last, m) == k then rest + [last] else rest
  }

  /**
   * The map built by newMapping[closest].push_back(v) over the vertices of the
   * plate: a key for every nearest frontier vertex that wins at least one
   * vertex, holding exactly the vertices it wins, in list order.
   */
  function Buckets(vs: seq<nat>, keys: seq<nat>, vertices: seq<Vec3>, m: MathLib): (r: map<nat, seq<nat>>)
    requires |keys| > 0 && KeysIn(keys, |vertices|) && AllIn(vs, |vertices|)
    ensures forall k :: k in r <==> Bucket(vs, keys, vertices, m, k) != []
    ensures forall k :: k in r ==> r[k] == Bucket(vs, keys, vertices, m, k) && k in keys
  {
    if vs == [] then map[]
    else
      var prefix := vs[..|vs| - 1];
      var previous := Buckets(prefix, keys, vertices, m);
      var last := vs[|vs| - 1];
      var k := NearestKey(vertices, keys, last, m);
      BucketsExtend(previous, vs, keys, vertices, m);
      previous[k := (if k in previous then previous[k] else []) + [last]]
  }

  /** Appending the last vertex to its nearest key's bucket turns the map of the prefix into the map of vs. */
  lemma {:induction false} BucketsExtend(previous: map<nat, seq<nat>>, vs: seq<nat>, keys: seq<nat>, vertices: seq<Vec3>, m: MathLib)
    requires |keys| > 0 && KeysIn(keys, |vertices|) && AllIn(vs, |vertices|) && vs != []
    requires AllIn(vs[..|vs| - 1], |vertices|)
    requires forall k :: k in previous <==> Bucket(vs[..|vs| - 1], keys, vertices, m, k) != []
    requires forall k :: k in previous ==> previous[k] == Bucket(vs[..|vs| - 1], keys, vertices, m, k) && k in keys
    ensures var k := NearestKey(vertices, keys, vs[|vs| - 1], m);
      var r := previous[k := (if k in previous then previous[k] else []) + [vs[|vs| - 1]]];
      && (forall k' :: k' in r <==> Bucket(vs, keys, vertices, m, k') != [])
      && (forall k' :: k' in r ==> r[k'] == Bucket(vs, keys, vertices, m, k') && k' in keys)
  {
    BucketAppend(vs, keys, vertices, m);
  }

  /** Each bucket of vs is its bucket of all but the last vertex, extended by that vertex when it is its nearest. */
  lemma {:induction false} BucketAppend(vs: seq<nat>, keys: seq<nat>, vertices: seq<Vec3>, m: MathLib)
    requires |keys| > 0 && KeysIn(keys, |vertices|) && AllIn(vs, |vertices|) && vs != []
    ensures AllIn(vs[..|vs| - 1], |vertices|)
    ensures forall k :: (Bucket(vs, keys, vertices, m, k) ==
      Bucket(vs[..|vs| - 1], keys, vertices, m, k) + (if NearestKey(vertices, keys, vs[|vs| - 1], m) == k then [vs[|vs| - 1]] else []))
  {
    forall k
      ensures Bucket(vs, keys, vertices, m, k) ==
        Bucket(vs[..|vs| - 1], keys, vertices, m, k) + (if NearestKey(vertices, keys, vs[|vs| - 1], m) == k then [vs[|vs| - 1]] else [])
    {
      if NearestKey(vertices, keys, vs[|vs| - 1], m) != k {
        assert Bucket(vs[..|vs| - 1], keys, vertices, m, k) + [] == Bucket(vs[..|vs| - 1], keys, vertices, m, k);
      }
    }
  }

  /** Every vertex of vs lands in exactly one bucket: that of its nearest key. */
  lemma EachVertexInOneBucket(vs: seq<nat>, keys: seq<nat>, vertices: seq<Vec3>, m: MathLib, x: nat, k: nat)
    requires |keys| > 0 && KeysIn(keys, |vertices|) && AllIn(vs, |vertices|)
    requires x in vs
    ensures var r := Buckets(vs, keys, vertices, m);
      k in r && x in r[k] <==> k == NearestKey(vertices, keys, x, m)
  {
    var i :| 0 <= i < |vs| && vs[i] == x;
    var r := Buckets(vs, keys, vertices, m);
    assert NearestKey(vertices, keys, vs[i], m) in r;
  }

  /** What fillClosestFrontierVertices indexes without checking, for one plate. */
  predicate PlateIndexed(plate: Plate, n: nat)
  {
    AllIn(plate.vertices, n) && forall k :: k in plate.closestFrontier ==> k < n
  }

  /** The keys of the plate's frontier map in the order the map visits them. */
  function FrontierKeys(plate: Plate, n: nat): (keys: seq<nat>)
    requires PlateIndexed(plate, n)
    ensures StrictlySorted(keys) && KeysIn(keys, n)
    ensures forall k :: k in keys <==> k in plate.closestFrontier
    ensures keys == [] <==> plate.closestFrontier == map[]
  {
    var keys := KeysBelow(plate.closestFrontier.Keys, n);
    assert keys != [] ==> plate.closestFrontier != map[] by {
      if keys != [] {
        assert keys[0] in keys;
      }
    }
    keys
  }

  /** The new frontier map of one plate, or the old one when it has no key. */
  function Rebucketed(plate: Plate, vertices: seq<Vec3>, m: MathLib): (c: map<nat, seq<nat>>)
    requires PlateIndexed(plate, |vertices|)
    ensures plate.closestFrontier == map[] ==> c == map[]
    ensures forall k :: k in c ==> k in plate.closestFrontier
  {
    var keys := FrontierKeys(plate, |vertices|);
    if keys == [] then plate.closestFrontier
    else Buckets(plate.vertices, keys, vertices, m)
  }

  /**
   * Every vertex of a plate with frontier keys ends in exactly one bucket, that
   * of the nearest key, the smaller key winning a tie.
   */
  lemma RebucketedPlacesEachVertex(plate: Plate, vertices: seq<Vec3>, m: MathLib, x: nat, k: nat)
    requires PlateIndexed(plate, |vertices|) && plate.closestFrontier != map[] && x in plate.vertices
    ensures var c := Rebucketed(plate, vertices, m);
      k in c && x in c[k] <==> k == NearestKey(vertices, FrontierKeys(plate, |vertices|), x, m)
  {
    EachVertexInOneBucket(plate.vertices, FrontierKeys(plate, |vertices|), vertices, m, x, k);
  }

  /** One more vertex appended to its nearest key's bucket. */
  lemma BucketsStep(vs: seq<nat>, i: nat, keys: seq<nat>, vertices: seq<Vec3>, m: MathLib)
    requires |keys| > 0 && KeysIn(keys, |vertices|) && AllIn(vs, |vertices|) && i < |vs|
    ensures var k := NearestKey(vertices, keys, vs[i], m);
      var b := Buckets(vs[..i], keys, vertices, m);
      Buckets(vs[..i + 1], keys, vertices, m) == b[k := (if k in b then b[k] else []) + [vs[i]]]
  {
    assert vs[..i + 1][..i] == vs[..i];
  }

  /** One plate's pass: the nearest key of each vertex by a scan over the keys in order. */
  method RebucketPlate(plate: Plate, vertices: seq<Vec3>, m: MathLib) returns (r: Plate)
    requires PlateIndexed(plate, |vertices|)
    ensures r == plate.(closestFrontier := Rebucketed(plate, vertices, m))
  {
    var keys := FrontierKeys(plate, |vertices|);
    if keys == [] {
      return plate;
    }
    var mapping := BucketVertices(plate.vertices, keys, vertices, m);
    r := plate.(closestFrontier := mapping);
  }

  /** The loop over the plate's vertices, appending each to the bucket of its nearest key. */
  method BucketVertices(vs: seq<nat>, keys: seq<nat>, vertices: seq<Vec3>, m: MathLib) returns (mapping: map<nat, seq<nat>>)
    requires |keys| > 0 && KeysIn(keys, |vertices|) && AllIn(vs, |vertices|)
    ensures mapping == Buckets(vs, keys, vertices, m)
  {
    mapping := map[];
    var i := 0;
    while i < |vs|
      invariant i <= |vs|
      invariant mapping == Buckets(vs[..i], keys, vertices, m)
    {
      BucketsStep(vs, i, keys, vertices, m);
      var j := ArgMin(Distances(vertices, keys, vs[i], m));
      var closest := keys[j];
      assert closest == NearestKey(vertices, keys, vs[i], m);
      mapping := mapping[closest := (if closest in mapping then mapping[closest] else []) + [vs[i]]];
      i := i + 1;
    }
    assert vs[..|vs|] == vs;
  }

  /** after is plate before with its frontier map rebucketed. */
  predicate Refilled(before: Plate, after: Plate, vertices: seq<Vec3>, m: MathLib)
  {
    PlateIndexed(before, |vertices|) && after == before.(closestFrontier := Rebucketed(before, vertices, m))
  }

  /** Every plate rebucketed in turn; nothing but the frontier maps changes. */
  method FillClosestFrontier(plates: seq<Plate>, vertices: seq<Vec3>, m: MathLib) returns (r: seq<Plate>)
    requires forall p :: 0 <= p < |plates| ==> PlateIndexed(plates[p], |vertices|)
    ensures |r| == |plates|
    ensures forall p :: 0 <= p < |r| ==> r[p] == plates[p].(closestFrontier := Rebucketed(plates[p], vertices, m))
  {
    r := [];
    var p := 0;
    while p < |plates|
      invariant p <= |plates| && |r| == p
      invariant forall q :: 0 <= q < p ==> Refilled(plates[q], r[q], vertices, m)
    {
      var plate := RebucketPlate(plates[p], vertices, m);
      ghost var r0 := r;
      r := r + [plate];
      forall q | 0 <= q <= p
        ensures Refilled(plates[q], r[q], vertices, m)
      {
        if q < p {
          assert r[q] == r0[q];
        }
      }
      p := p + 1;
    }
    assert forall q :: 0 <= q < |r| ==> Refilled(plates[q], r[q], vertices, m);
  }
}
