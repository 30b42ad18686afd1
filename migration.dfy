/**
 * The terrane half of a continental collision
 * (ContinentalCollision::triggerTerranesMigration in src/continentalCollision.cpp):
 * the nearest non-empty terrane of each plate is found, the larger one wins,
 * and the vertices of the losing terrane within the collision radius move to
 * the winning plate and terrane. Both centroids are recomputed, and a losing
 * terrane left empty is erased together with its centroid.
 *
 * Every step reads the current plates, so when both sides name the same plate
 * or the same terrane the updates land on one value in source order, as the
 * references of the source do.
 */
module TerraneMigration {
  import opened Options
  import opened Geometry
  import opened Phenomena
  import opened Plates
  import opened Planets
  import opened Terranes

  /** COLLISION_RADIUS */
  const CollisionRadius: real := 0.2

  // ---------------------------------------------------------------------------
  // The nearest terrane

  /** Every terrane has a centroid slot. */
  predicate TerranesIndexed(p: Plate)
  {
    |p.terranes| <= |p.terraneCentroids|
  }

  /** Every terrane vertex is a vertex of the planet. */
  predicate TerranesWithin(p: Plate, n: nat)
  {
    forall i :: 0 <= i < |p.terranes| ==> forall v :: v in p.terranes[i] ==> v < n
  }

  function TerraneDistance(cs: seq<Vec3>, point: Vec3, i: nat, m: MathLib): real
    requires i < |cs|
  {
    Length(Sub(point, cs[i]), m)
  }

  /**
   * The first non-empty terrane whose centroid is strictly nearer than every
   * earlier one's, as the search loop keeps it; None when all are empty.
   */
  function NearestTerrane(ts: seq<seq<nat>>, cs: seq<Vec3>, point: Vec3, m: MathLib): (r: Option<nat>)
    requires |ts| <= |cs|
    ensures r.Some? ==> r.value < |ts| && ts[r.value] != []
    decreases |ts|
  {
    if ts == [] then None
    else
      var i := |ts| - 1;
      var r := NearestTerrane(ts[..i], cs, point, m);
      if ts[i] == [] then r
      else if r.None? || TerraneDistance(cs, point, i, m) < TerraneDistance(cs, point, r.value, m) then Some(i)
      else r
  }

  /**
   * A terrane is found iff some terrane is non-empty; the one found is no
   * farther than any non-empty terrane and strictly nearer than every earlier one.
   */
  lemma {:induction false} NearestTerraneIsNearest(ts: seq<seq<nat>>, cs: seq<Vec3>, point: Vec3, m: MathLib)
    requires |ts| <= |cs|
    ensures var r := NearestTerrane(ts, cs, point, m);
      && (r.None? <==> forall j :: 0 <= j < |ts| ==> ts[j] == [])
      && (r.Some? ==> forall j :: 0 <= j < |ts| && ts[j] != [] ==>
            && TerraneDistance(cs, point, r.value, m) <= TerraneDistance(cs, point, j, m)
            && (j < r.value ==> TerraneDistance(cs, point, r.value, m) < TerraneDistance(cs, point, j, m)))
    decreases |ts|
  {
    if ts != [] {
      var i := |ts| - 1;
      NearestTerraneIsNearest(ts[..i], cs, point, m);
      assert forall j :: 0 <= j < i ==> ts[..i][j] == ts[j];
    }
  }

  /** The search loop over one plate's terranes. */
  method ClosestTerrane(p: Plate, point: Vec3, m: MathLib) returns (found: bool, idx: nat)
    requires TerranesIndexed(p)
    ensures found == NearestTerrane(p.terranes, p.terraneCentroids, point, m).Some?
    ensures found ==> idx == NearestTerrane(p.terranes, p.terraneCentroids, point, m).value
  {
    var ts, cs := p.terranes, p.terraneCentroids;
    found, idx := false, 0;
    var minDist := 0.0;
    var i := 0;
    while i < |ts|
      invariant i <= |ts|
      invariant found == NearestTerrane(ts[..i], cs, point, m).Some?
      invariant found ==> idx == NearestTerrane(ts[..i], cs, point, m).value && idx < i
      invariant found ==> minDist == TerraneDistance(cs, point, idx, m)
    {
      assert ts[..i + 1][..i] == ts[..i];
      if ts[i] != [] {
        var dist := Length(Sub(point, cs[i]), m);
        if !found || dist < minDist {
          minDist, idx, found := dist, i, true;
        }
      }
      i := i + 1;
    }
    assert ts[..i] == ts;
  }

  /** Which plate and terrane won, and which lost. */
  datatype Contest = Contest(aWins: bool, winPlate: nat, losePlate: nat, winTerrane: nat, loseTerrane: nat)

  /** Both nearest terranes, and the larger one wins; equal sizes go to plate A. */
  function Contested(plates: seq<Plate>, a: nat, b: nat, point: Vec3, m: MathLib): (c: Option<Contest>)
    requires a < |plates| && b < |plates| && TerranesIndexed(plates[a]) && TerranesIndexed(plates[b])
    ensures c.Some? ==>
      && c.value.winPlate < |plates| && c.value.losePlate < |plates|
      && c.value.winTerrane < |plates[c.value.winPlate].terranes|
      && c.value.loseTerrane < |plates[c.value.losePlate].terranes|
  {
    var na := NearestTerrane(plates[a].terranes, plates[a].terraneCentroids, point, m);
    var nb := NearestTerrane(plates[b].terranes, plates[b].terraneCentroids, point, m);
    if na.None? || nb.None? then None
    else
      var ia, ib := na.value, nb.value;
      if |plates[a].terranes[ia]| >= |plates[b].terranes[ib]| then Some(Contest(true, a, b, ia, ib))
      else Some(Contest(false, b, a, ib, ia))
  }

  /**
   * There is a contest iff both plates have a non-empty terrane. It is between
   * the nearest terranes of the two plates, and A wins iff its terrane is at
   * least as large as B's.
   */
  lemma ContestRule(plates: seq<Plate>, a: nat, b: nat, point: Vec3, m: MathLib)
    requires a < |plates| && b < |plates| && TerranesIndexed(plates[a]) && TerranesIndexed(plates[b])
    ensures var c := Contested(plates, a, b, point, m);
      && (c.Some? <==>
            (exists i :: 0 <= i < |plates[a].terranes| && plates[a].terranes[i] != []) &&
            (exists i :: 0 <= i < |plates[b].terranes| && plates[b].terranes[i] != []))
      && (c.Some? ==>
            var ia := NearestTerrane(plates[a].terranes, plates[a].terraneCentroids, point, m).value;
            var ib := NearestTerrane(plates[b].terranes, plates[b].terraneCentroids, point, m).value;
            && (c.value.aWins <==> |plates[a].terranes[ia]| >= |plates[b].terranes[ib]|)
            && (c.value.aWins ==> c.value == Contest(true, a, b, ia, ib))
            && (!c.value.aWins ==> c.value == Contest(false, b, a, ib, ia)))
  {
    NearestTerraneIsNearest(plates[a].terranes, plates[a].terraneCentroids, point, m);
    NearestTerraneIsNearest(plates[b].terranes, plates[b].terraneCentroids, point, m);
  }

  // ---------------------------------------------------------------------------
  // Sequence helpers

  /** Vertex x exists and lies within the collision radius of the point. */
  predicate NearCollision(vertices: seq<Vec3>, point: Vec3, x: nat, m: MathLib)
  {
    x < |vertices| && Length(Sub(vertices[x], point), m) <= CollisionRadius
  }

  /** The vertices of t within the collision radius, in order. */
  function WithinRadius(t: seq<nat>, vertices: seq<Vec3>, point: Vec3, m: MathLib): (r: seq<nat>)
    ensures forall x :: x in r <==> x in t && NearCollision(vertices, point, x, m)
    ensures |r| <= |t|
    decreases |t|
  {
    if t == [] then []
    else
      var x := t[|t| - 1];
      var r := WithinRadius(t[..|t| - 1], vertices, point, m);
      assert t == t[..|t| - 1] + [x];
      if NearCollision(vertices, point, x, m) then r + [x] else r
  }

  /** The selection loop over the losing terrane. */
  method SelectTransfer(t: seq<nat>, vertices: seq<Vec3>, point: Vec3, m: MathLib) returns (moved: seq<nat>)
    ensures moved == WithinRadius(t, vertices, point, m)
  {
    moved := [];
    var i := 0;
    while i < |t|
      invariant i <= |t|
      invariant moved == WithinRadius(t[..i], vertices, point, m)
    {
      assert t[..i + 1][..i] == t[..i];
      var x := t[i];
      if x < |vertices| {
        var dist := Length(Sub(vertices[x], point), m);
        if dist <= CollisionRadius {
          moved := moved + [x];
        }
      }
      i := i + 1;
    }
    assert t[..i] == t;
  }

  /** std::remove_if with membership in s: the elements not in s, in order. */
  function Without(xs: seq<nat>, s: set<nat>): (r: seq<nat>)
    ensures forall x :: x in r <==> x in xs && x !in s
    ensures |r| <= |xs|
    decreases |xs|
  {
    if xs == [] then []
    else
      var x := xs[|xs| - 1];
      var r := Without(xs[..|xs| - 1], s);
      assert xs == xs[..|xs| - 1] + [x];
      if x in s then r else r + [x]
  }

  /** Removing elements keeps a list free of duplicates. */
  lemma {:induction false} WithoutDistinct(xs: seq<nat>, s: set<nat>)
    requires Distinct(xs)
    ensures Distinct(Without(xs, s))
    decreases |xs|
  {
    if xs != [] {
      var x := xs[|xs| - 1];
      var init := xs[..|xs| - 1];
      assert xs == init + [x];
      assert Distinct(init);
      WithoutDistinct(init, s);
      assert x !in init;
    }
  }

  /** Each element of ys not already present is appended, in order. */
  function AppendMissing(xs: seq<nat>, ys: seq<nat>): (r: seq<nat>)
    ensures |xs| <= |r| && r[..|xs|] == xs
    ensures forall x :: x in r <==> x in xs || x in ys
    decreases |ys|
  {
    if ys == [] then xs
    else
      var y := ys[|ys| - 1];
      var r := AppendMissing(xs, ys[..|ys| - 1]);
      assert ys == ys[..|ys| - 1] + [y];
      if y in r then r else r + [y]
  }

  /** Appending only missing elements adds no duplicate. */
  lemma {:induction false} AppendMissingDistinct(xs: seq<nat>, ys: seq<nat>)
    requires Distinct(xs)
    ensures Distinct(AppendMissing(xs, ys))
    decreases |ys|
  {
    if ys != [] {
      AppendMissingDistinct(xs, ys[..|ys| - 1]);
    }
  }

  /** The loop that appends each transferred vertex unless std::find sees it. */
  method AppendEach(xs: seq<nat>, ys: seq<nat>) returns (r: seq<nat>)
    ensures r == AppendMissing(xs, ys)
  {
    r := xs;
    var i := 0;
    while i < |ys|
      invariant i <= |ys|
      invariant r == AppendMissing(xs, ys[..i])
    {
      assert ys[..i + 1][..i] == ys[..i];
      if ys[i] !in r {
        r := r + [ys[i]];
      }
      i := i + 1;
    }
    assert ys[..i] == ys;
  }

  /** The ownership array with every vertex of moved given to plate w. */
  function SetOwners(owner: seq<nat>, moved: seq<nat>, w: nat): (r: seq<nat>)
    requires forall j :: 0 <= j < |moved| ==> moved[j] < |owner|
    ensures |r| == |owner|
    ensures forall v :: 0 <= v < |owner| ==> r[v] == (if v in moved then w else owner[v])
    decreases |moved|
  {
    if moved == [] then owner
    else
      var x := moved[|moved| - 1];
      assert moved == moved[..|moved| - 1] + [x];
      SetOwners(owner, moved[..|moved| - 1], w)[x := w]
  }

  /** s without its i-th element. */
  function RemoveAt<T>(s: seq<T>, i: nat): (r: seq<T>)
    requires i < |s|
    ensures |r| == |s| - 1
  {
    s[..i] + s[i + 1..]
  }

  // ---------------------------------------------------------------------------
  // The transfer

  /** What the transfer indexes without checking. */
  predicate TransferInputs(plates: seq<Plate>, owner: seq<nat>, c: Contest, moved: seq<nat>)
  {
    && c.winPlate < |plates| && c.losePlate < |plates|
    && c.winTerrane < |plates[c.winPlate].terranes| && TerranesIndexed(plates[c.winPlate])
    && c.loseTerrane < |plates[c.losePlate].terranes| && TerranesIndexed(plates[c.losePlate])
    && forall j :: 0 <= j < |moved| ==> moved[j] < |owner|
  }

  /** The plates after the transfer, step by step as the source does it. */
  function TransferPlates(plates: seq<Plate>, vertices: seq<Vec3>, radius: real, c: Contest, moved: seq<nat>,
                          m: MathLib): (r: seq<Plate>)
    requires moved != []
    requires c.winPlate < |plates| && c.losePlate < |plates|
    requires c.winTerrane < |plates[c.winPlate].terranes| && TerranesIndexed(plates[c.winPlate])
    requires c.loseTerrane < |plates[c.losePlate].terranes| && TerranesIndexed(plates[c.losePlate])
    ensures |r| == |plates|
  {
    var s := set x | x in moved;
    var w, l := c.winPlate, c.losePlate;
    // remove from the losing plate's list, then append what is missing to the winner's
    var ps1 := plates[l := plates[l].(vertices := Without(plates[l].vertices, s))];
    var ps2 := ps1[w := ps1[w].(vertices := AppendMissing(ps1[w].vertices, moved))];
    // grow the winning terrane and recompute its centroid
    var wp := ps2[w];
    var grown := wp.terranes[c.winTerrane] + moved;
    var ps3 := ps2[w := wp.(terranes := wp.terranes[c.winTerrane := grown],
                            terraneCentroids := wp.terraneCentroids[c.winTerrane := TerraneCentroid(grown, vertices, radius, m)])];
    // shrink the losing terrane; erase it with its centroid when empty
    var lp := ps3[l];
    var shrunk := Without(lp.terranes[c.loseTerrane], s);
    if shrunk == [] then
      ps3[l := lp.(terranes := RemoveAt(lp.terranes, c.loseTerrane),
                   terraneCentroids := RemoveAt(lp.terraneCentroids, c.loseTerrane))]
    else
      ps3[l := lp.(terranes := lp.terranes[c.loseTerrane := shrunk],
                   terraneCentroids := lp.terraneCentroids[c.loseTerrane := TerraneCentroid(shrunk, vertices, radius, m)])]
  }

  /** What triggerTerranesMigration indexes without checking, once its range checks have passed. */
  predicate MigrationInputs(plates: seq<Plate>, owner: seq<nat>, n: nat, a: nat, b: nat, k: nat)
  {
    k < n && a < |plates| && b < |plates| ==>
      && |owner| == n
      && TerranesIndexed(plates[a]) && TerranesIndexed(plates[b])
      && TerranesWithin(plates[a], n) && TerranesWithin(plates[b], n)
  }

  /** The plates and the ownership array after the migration. */
  function Migration(plates: seq<Plate>, owner: seq<nat>, vertices: seq<Vec3>, radius: real,
                     a: nat, b: nat, k: nat, m: MathLib): (r: (seq<Plate>, seq<nat>))
    requires MigrationInputs(plates, owner, |vertices|, a, b, k)
    ensures |r.0| == |plates| && |r.1| == |owner|
  {
    if k >= |vertices| || a >= |plates| || b >= |plates| then (plates, owner)
    else
      var point := vertices[k];
      match Contested(plates, a, b, point, m)
      case None => (plates, owner)
      case Some(c) =>
        var moved := WithinRadius(plates[c.losePlate].terranes[c.loseTerrane], vertices, point, m);
        assert forall j :: 0 <= j < |moved| ==> moved[j] in moved;
        if moved == [] then (plates, owner)
        else (TransferPlates(plates, vertices, radius, c, moved, m), SetOwners(owner, moved, c.winPlate))
  }

  // ---------------------------------------------------------------------------
  // What the migration promises

  /**
   * Nothing changes when the vertex or a plate is out of range, when a plate
   * has no non-empty terrane, or when no losing vertex is within the radius.
   */
  lemma MigrationNoOp(plates: seq<Plate>, owner: seq<nat>, vertices: seq<Vec3>, radius: real,
                      a: nat, b: nat, k: nat, m: MathLib)
    requires MigrationInputs(plates, owner, |vertices|, a, b, k)
    requires || k >= |vertices| || a >= |plates| || b >= |plates|
             || (forall i :: 0 <= i < |plates[a].terranes| ==> plates[a].terranes[i] == [])
             || (forall i :: 0 <= i < |plates[b].terranes| ==> plates[b].terranes[i] == [])
             || (var c := Contested(plates, a, b, vertices[k], m);
                 c.Some? && WithinRadius(plates[c.value.losePlate].terranes[c.value.loseTerrane], vertices, vertices[k], m) == [])
    ensures Migration(plates, owner, vertices, radius, a, b, k, m) == (plates, owner)
  {
    if k < |vertices| && a < |plates| && b < |plates| {
      ContestRule(plates, a, b, vertices[k], m);
    }
  }

  /**
   * When a transfer happens: exactly the losing terrane's vertices within the
   * radius move; they now belong to the winning plate, no other vertex changes
   * owner, and no plate but the two is touched.
   */
  lemma MigrationOwnership(plates: seq<Plate>, owner: seq<nat>, vertices: seq<Vec3>, radius: real,
                           a: nat, b: nat, k: nat, m: MathLib)
    requires MigrationInputs(plates, owner, |vertices|, a, b, k)
    requires k < |vertices| && a < |plates| && b < |plates|
    ensures var c := Contested(plates, a, b, vertices[k], m);
      var r := Migration(plates, owner, vertices, radius, a, b, k, m);
      c.Some? ==>
        var moved := WithinRadius(plates[c.value.losePlate].terranes[c.value.loseTerrane], vertices, vertices[k], m);
        && (forall x :: x in moved <==>
              x in plates[c.value.losePlate].terranes[c.value.loseTerrane] && NearCollision(vertices, vertices[k], x, m))
        && (forall v :: 0 <= v < |owner| ==> r.1[v] == (if v in moved then c.value.winPlate else owner[v]))
        && (forall p :: 0 <= p < |plates| && p != a && p != b ==> r.0[p] == plates[p])
  {
    var c := Contested(plates, a, b, vertices[k], m);
    if c.Some? {
      var moved := WithinRadius(plates[c.value.losePlate].terranes[c.value.loseTerrane], vertices, vertices[k], m);
      if moved != [] {
        TransferPlatesFrame(plates, vertices, radius, c.value, moved, m);
      }
    }
  }

  /** The transfer touches only the two plates of the contest. */
  lemma TransferPlatesFrame(plates: seq<Plate>, vertices: seq<Vec3>, radius: real, c: Contest, moved: seq<nat>, m: MathLib)
    requires moved != []
    requires c.winPlate < |plates| && c.losePlate < |plates|
    requires c.winTerrane < |plates[c.winPlate].terranes| && TerranesIndexed(plates[c.winPlate])
    requires c.loseTerrane < |plates[c.losePlate].terranes| && TerranesIndexed(plates[c.losePlate])
    ensures forall p :: 0 <= p < |plates| && p != c.winPlate && p != c.losePlate ==>
      TransferPlates(plates, vertices, radius, c, moved, m)[p] == plates[p]
  {
  }

  /**
   * Between two different plates: the winning plate's list gains the moved
   * vertices, at most once each, the losing plate's list loses exactly them,
   * the winning terrane has them appended, and the losing terrane loses exactly
   * them; it is erased with its centroid when nothing is left.
   */
  lemma TransferEffects(plates: seq<Plate>, vertices: seq<Vec3>, radius: real, c: Contest, moved: seq<nat>, m: MathLib)
    requires moved != [] && c.winPlate != c.losePlate
    requires c.winPlate < |plates| && c.losePlate < |plates|
    requires c.winTerrane < |plates[c.winPlate].terranes| && TerranesIndexed(plates[c.winPlate])
    requires c.loseTerrane < |plates[c.losePlate].terranes| && TerranesIndexed(plates[c.losePlate])
    ensures var r := TransferPlates(plates, vertices, radius, c, moved, m);
      var w, l := c.winPlate, c.losePlate;
      var shrunk := Without(plates[l].terranes[c.loseTerrane], set x | x in moved);
      && (forall x :: x in r[w].vertices <==> x in plates[w].vertices || x in moved)
      && (forall x :: x in r[l].vertices <==> x in plates[l].vertices && x !in moved)
      && (Distinct(plates[w].vertices) ==> Distinct(r[w].vertices))
      && (Distinct(plates[l].vertices) ==> Distinct(r[l].vertices))
      && r[w].terranes == plates[w].terranes[c.winTerrane := plates[w].terranes[c.winTerrane] + moved]
      && (forall x :: x in shrunk <==> x in plates[l].terranes[c.loseTerrane] && x !in moved)
      && (shrunk == [] ==>
            && r[l].terranes == RemoveAt(plates[l].terranes, c.loseTerrane)
            && r[l].terraneCentroids == RemoveAt(plates[l].terraneCentroids, c.loseTerrane))
      && (shrunk != [] ==>
            && r[l].terranes == plates[l].terranes[c.loseTerrane := shrunk]
            && |r[l].terraneCentroids| == |plates[l].terraneCentroids|)
  {
    var s := set x | x in moved;
    var w, l := c.winPlate, c.losePlate;
    if Distinct(plates[w].vertices) {
      AppendMissingDistinct(plates[w].vertices, moved);
    }
    if Distinct(plates[l].vertices) {
      WithoutDistinct(plates[l].vertices, s);
    }
  }

  /** Terranes and their centroids stay aligned, whichever plates and terranes take part. */
  lemma MigrationKeepsTerranesAligned(plates: seq<Plate>, owner: seq<nat>, vertices: seq<Vec3>, radius: real,
                                      a: nat, b: nat, k: nat, m: MathLib)
    requires MigrationInputs(plates, owner, |vertices|, a, b, k)
    requires forall p :: 0 <= p < |plates| ==> |plates[p].terranes| == |plates[p].terraneCentroids|
    ensures var r := Migration(plates, owner, vertices, radius, a, b, k, m).0;
      forall p :: 0 <= p < |r| ==> |r[p].terranes| == |r[p].terraneCentroids|
  {
    if k < |vertices| && a < |plates| && b < |plates| {
      var point := vertices[k];
      var c := Contested(plates, a, b, point, m);
      if c.Some? {
        var moved := WithinRadius(plates[c.value.losePlate].terranes[c.value.loseTerrane], vertices, point, m);
        if moved != [] {
          TransferKeepsAligned(plates, vertices, radius, c.value, moved, m);
        }
      }
    }
  }

  ghost predicate AllAligned(plates: seq<Plate>)
  {
    forall p :: 0 <= p < |plates| ==> |plates[p].terranes| == |plates[p].terraneCentroids|
  }

  lemma TransferKeepsAligned(plates: seq<Plate>, vertices: seq<Vec3>, radius: real, c: Contest, moved: seq<nat>, m: MathLib)
    requires moved != []
    requires c.winPlate < |plates| && c.losePlate < |plates|
    requires c.winTerrane < |plates[c.winPlate].terranes| && TerranesIndexed(plates[c.winPlate])
    requires c.loseTerrane < |plates[c.losePlate].terranes| && TerranesIndexed(plates[c.losePlate])
    requires AllAligned(plates)
    ensures AllAligned(TransferPlates(plates, vertices, radius, c, moved, m))
  {
    var s := set x | x in moved;
    var w, l := c.winPlate, c.losePlate;
    var ps1 := plates[l := plates[l].(vertices := Without(plates[l].vertices, s))];
    assert AllAligned(ps1);
    var ps2 := ps1[w := ps1[w].(vertices := AppendMissing(ps1[w].vertices, moved))];
    assert AllAligned(ps2);
    var wp := ps2[w];
    var grown := wp.terranes[c.winTerrane] + moved;
    var ps3 := ps2[w := wp.(terranes := wp.terranes[c.winTerrane := grown],
                            terraneCentroids := wp.terraneCentroids[c.winTerrane := TerraneCentroid(grown, vertices, radius, m)])];
    assert AllAligned(ps3);
  }

  /** The transfer of the plates' lists and terranes, with its loops. */
  method Transfer(plates: seq<Plate>, vertices: seq<Vec3>, radius: real, c: Contest, moved: seq<nat>, m: MathLib)
    returns (ps: seq<Plate>)
    requires moved != []
    requires c.winPlate < |plates| && c.losePlate < |plates|
    requires c.winTerrane < |plates[c.winPlate].terranes| && TerranesIndexed(plates[c.winPlate])
    requires c.loseTerrane < |plates[c.losePlate].terranes| && TerranesIndexed(plates[c.losePlate])
    ensures ps == TransferPlates(plates, vertices, radius, c, moved, m)
  {
    var s := set x | x in moved;
    var w, l := c.winPlate, c.losePlate;
    ps := plates[l := plates[l].(vertices := Without(plates[l].vertices, s))];
    var joined := AppendEach(ps[w].vertices, moved);
    ps := ps[w := ps[w].(vertices := joined)];
    var wp := ps[w];
    var grown := wp.terranes[c.winTerrane] + moved;
    var winCentroid := ComputeCentroid(grown, vertices, radius, m);
    ps := ps[w := wp.(terranes := wp.terranes[c.winTerrane := grown],
                      terraneCentroids := wp.terraneCentroids[c.winTerrane := winCentroid])];
    var lp := ps[l];
    var shrunk := Without(lp.terranes[c.loseTerrane], s);
    if shrunk == [] {
      ps := ps[l := lp.(terranes := RemoveAt(lp.terranes, c.loseTerrane),
                        terraneCentroids := RemoveAt(lp.terraneCentroids, c.loseTerrane))];
    } else {
      var loseCentroid := ComputeCentroid(shrunk, vertices, radius, m);
      ps := ps[l := lp.(terranes := lp.terranes[c.loseTerrane := shrunk],
                        terraneCentroids := lp.terraneCentroids[c.loseTerrane := loseCentroid])];
    }
  }

  /** The loop of triggerTerranesMigration that hands every moved vertex to the winning plate. */
  method GiveVertices(owner: seq<nat>, moved: seq<nat>, w: nat) returns (r: seq<nat>)
    requires forall j :: 0 <= j < |moved| ==> moved[j] < |owner|
    ensures r == SetOwners(owner, moved, w)
  {
    r := owner;
    var i := 0;
    while i < |moved|
      invariant i <= |moved|
      invariant r == SetOwners(owner, moved[..i], w)
    {
      assert moved[..i + 1][..i] == moved[..i];
      r := r[moved[i] := w];
      i := i + 1;
    }
    assert moved[..i] == moved;
  }

  /** ContinentalCollision::triggerTerranesMigration. */
  method TriggerTerranesMigration(planet: Planet, ph: Phenomenon, m: MathLib)
    requires ph.ContinentalCollision?
    requires MigrationInputs(planet.plates, planet.verticesToPlates, |planet.vertices|, ph.plateA, ph.plateB, ph.vertex)
    modifies planet`plates, planet`verticesToPlates
    ensures (planet.plates, planet.verticesToPlates) ==
      Migration(old(planet.plates), old(planet.verticesToPlates), planet.vertices, planet.radius,
                ph.plateA, ph.plateB, ph.vertex, m)
  {
    var k, a, b := ph.vertex, ph.plateA, ph.plateB;
    if k >= |planet.vertices| { return; }
    if a >= |planet.plates| || b >= |planet.plates| { return; }
    var point := planet.vertices[k];
    var foundA, ia := ClosestTerrane(planet.plates[a], point, m);
    var foundB, ib := ClosestTerrane(planet.plates[b], point, m);
    if !foundA || !foundB { return; }
    var c := if |planet.plates[a].terranes[ia]| >= |planet.plates[b].terranes[ib]|
             then Contest(true, a, b, ia, ib) else Contest(false, b, a, ib, ia);
    assert Contested(planet.plates, a, b, point, m) == Some(c);
    var moved := SelectTransfer(planet.plates[c.losePlate].terranes[c.loseTerrane], planet.vertices, point, m);
    if moved == [] { return; }
    assert forall j :: 0 <= j < |moved| ==> moved[j] in moved;

    var owner := GiveVertices(planet.verticesToPlates, moved, c.winPlate);
    planet.verticesToPlates := owner;
    var ps := Transfer(planet.plates, planet.vertices, planet.radius, c, moved, m);
    planet.plates := ps;
  }
}
