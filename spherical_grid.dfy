/**
 * The spatial index over the mesh (src/SphericalGrid.h): the vertices are
 * projected onto the unit sphere and stored in a kd-tree; queries return the
 * nearest vertex, the k nearest, or the nearest pair of vertices on different
 * plates, found by a search that doubles k and falls back to a sorted
 * exhaustive scan.
 *
 * The kd-tree itself is an oracle knn(q, k) whose answers obey KnnLaw: the k
 * nearest stored points, distinct, in ascending order of squared distance.
 */
module SphericalGrid {
  import opened Geometry
  import opened Terranes

  /** Points no longer than this are stored and queried as they are. */
  const TinyLength: real := 0.000000000001
  /** The first k of the doubling search. */
  const InitialK: nat := 8

  function MinNat(a: nat, b: nat): (r: nat)
    ensures r <= a && r <= b && (r == a || r == b)
  {
    if a < b then a else b
  }

  /** p divided by its length when that exceeds 1e-12, p itself otherwise. */
  function Unit(p: Vec3, m: MathLib): Vec3
  {
    var len := Length(p, m);
    if len > TinyLength then Scale(p, 1.0 / len) else p
  }

  /** Points longer than 1e-12 are projected onto the unit sphere. */
  lemma UnitIsUnit(p: Vec3, m: MathLib)
    requires Lawful(m) && Length(p, m) > TinyLength
    ensures SqLen(Unit(p, m)) == 1.0
  {
    LengthZero(p, m);
    NormalizeIsUnit(p, m);
  }

  function Dist2(a: Vec3, b: Vec3): real
  {
    SqLen(Sub(a, b))
  }

  /** The indices are in range and in ascending order of squared distance to q. */
  predicate SortedBy(s: seq<nat>, pts: seq<Vec3>, q: Vec3)
  {
    && (forall i :: 0 <= i < |s| ==> s[i] < |pts|)
    && (forall i, j :: 0 <= i < j < |s| ==> Dist2(pts[s[i]], q) <= Dist2(pts[s[j]], q))
  }

  /**
   * A correct answer of k_nearest_neighbors(q, k): min(k, n) distinct stored
   * indices in ascending order of distance, none farther than a point left out.
   */
  predicate KnnAnswer(r: seq<nat>, pts: seq<Vec3>, q: Vec3, k: nat)
  {
    && |r| == MinNat(k, |pts|) && Distinct(r) && SortedBy(r, pts, q)
    && (forall x, i :: 0 <= x < |pts| && x !in r && 0 <= i < |r| ==> Dist2(pts[r[i]], q) <= Dist2(pts[x], q))
  }

  /** The tree answers every query correctly. */
  ghost predicate KnnLaw(knn: (Vec3, nat) -> seq<nat>, pts: seq<Vec3>)
  {
    forall q, k :: KnnAnswer(knn(q, k), pts, q, k)
  }

  // ---------------------------------------------------------------------------
  // Plate annotations

  /** The vertex has an owner, and the owner is an existing plate. */
  predicate Annotated(owner: seq<nat>, plateCount: nat, x: nat)
  {
    x < |owner| && owner[x] < plateCount
  }

  /** The annotated entries of an index list, in list order. */
  function AnnotatedOf(r: seq<nat>, owner: seq<nat>, plateCount: nat): (c: seq<nat>)
    ensures forall x :: x in c <==> x in r && Annotated(owner, plateCount, x)
    decreases |r|
  {
    if r == [] then []
    else
      var x := r[|r| - 1];
      var c := AnnotatedOf(r[..|r| - 1], owner, plateCount);
      assert r == r[..|r| - 1] + [x];
      if Annotated(owner, plateCount, x) then c + [x] else c
  }

  /** Filtering keeps the order. */
  lemma {:induction false} AnnotatedOfSorted(r: seq<nat>, owner: seq<nat>, plateCount: nat, pts: seq<Vec3>, q: Vec3)
    requires SortedBy(r, pts, q)
    ensures SortedBy(AnnotatedOf(r, owner, plateCount), pts, q)
    decreases |r|
  {
    if r != [] {
      var x := r[|r| - 1];
      var init := r[..|r| - 1];
      assert SortedBy(init, pts, q);
      AnnotatedOfSorted(init, owner, plateCount, pts, q);
      var c := AnnotatedOf(init, owner, plateCount);
      var full := AnnotatedOf(r, owner, plateCount);
      if Annotated(owner, plateCount, x) {
        assert full == c + [x];
        forall i | 0 <= i < |c|
          ensures Dist2(pts[c[i]], q) <= Dist2(pts[x], q)
        {
          assert c[i] in init;
          var t :| 0 <= t < |init| && init[t] == c[i];
          assert r[t] == c[i];
        }
        forall i, j | 0 <= i < j < |full|
          ensures Dist2(pts[full[i]], q) <= Dist2(pts[full[j]], q)
        {
          assert full[i] == c[i];
        }
      } else {
        assert full == c;
      }
    }
  }

  /** The loop that collects the candidates of one tree answer. */
  method CollectCandidates(r: seq<nat>, owner: seq<nat>, plateCount: nat) returns (c: seq<nat>)
    ensures c == AnnotatedOf(r, owner, plateCount)
  {
    c := [];
    var i := 0;
    while i < |r|
      invariant i <= |r| && c == AnnotatedOf(r[..i], owner, plateCount)
    {
      assert r[..i + 1][..i] == r[..i];
      if r[i] < |owner| && owner[r[i]] < plateCount {
        c := c + [r[i]];
      }
      i := i + 1;
    }
    assert r[..i] == r;
  }

  /** Two annotated stored vertices lie on different plates. */
  ghost predicate PairExists(n: nat, owner: seq<nat>, plateCount: nat)
  {
    exists x, y :: 0 <= x < n && 0 <= y < n && Annotated(owner, plateCount, x) && Annotated(owner, plateCount, y) && owner[x] != owner[y]
  }

  /** a is an annotated stored vertex nearest to q. */
  ghost predicate ClosestAnnotated(pts: seq<Vec3>, q: Vec3, owner: seq<nat>, plateCount: nat, a: nat)
  {
    && a < |pts| && Annotated(owner, plateCount, a)
    && forall x :: 0 <= x < |pts| && Annotated(owner, plateCount, x) ==> Dist2(pts[a], q) <= Dist2(pts[x], q)
  }

  /** b is an annotated stored vertex nearest to q among those on another plate than a. */
  ghost predicate ClosestOther(pts: seq<Vec3>, q: Vec3, owner: seq<nat>, plateCount: nat, a: nat, b: nat)
    requires a < |owner|
  {
    && b < |pts| && Annotated(owner, plateCount, b) && owner[b] != owner[a]
    && forall y :: 0 <= y < |pts| && Annotated(owner, plateCount, y) && owner[y] != owner[a] ==> Dist2(pts[b], q) <= Dist2(pts[y], q)
  }

  // ---------------------------------------------------------------------------
  // The pair scan

  /** j is the first position whose plate differs from that of the first candidate. */
  predicate FirstOther(c: seq<nat>, owner: seq<nat>, j: nat)
    requires forall i :: 0 <= i < |c| ==> c[i] < |owner|
  {
    0 < j < |c| && owner[c[j]] != owner[c[0]] && forall i :: 0 <= i < j ==> owner[c[i]] == owner[c[0]]
  }

  /**
   * The nested scan over candidate pairs (i, j), i < j, that returns the first
   * pair on different plates. It always pairs the first candidate with the
   * first candidate of another plate: if any pair differs, one of its two
   * differs from the first candidate.
   */
  method FirstPair(c: seq<nat>, owner: seq<nat>) returns (found: bool, a: nat, b: nat, ghost j: nat)
    requires forall i :: 0 <= i < |c| ==> c[i] < |owner|
    ensures found <==> |c| > 0 && exists t :: 0 <= t < |c| && owner[c[t]] != owner[c[0]]
    ensures found ==> FirstOther(c, owner, j) && a == c[0] && b == c[j]
  {
    found, a, b, j := false, 0, 0, 0;
    var i := 0;
    while i + 1 < |c|
      invariant i <= |c|
      invariant forall t, u :: 0 <= t < i && t < u < |c| ==> owner[c[u]] == owner[c[t]]
    {
      var pi := owner[c[i]];
      var k := i + 1;
      while k < |c|
        invariant i + 1 <= k <= |c|
        invariant forall u :: i < u < k ==> owner[c[u]] == pi
      {
        if pi != owner[c[k]] {
          found, a, b, j := true, c[i], c[k], k;
          return;
        }
        k := k + 1;
      }
      i := i + 1;
    }
    if |c| > 0 {
      forall t | 0 <= t < |c|
        ensures owner[c[t]] == owner[c[0]]
      {
        if t > 0 {
          assert i == 0 || i + 1 >= |c|;
        }
      }
    }
  }

  /**
   * A scan over candidates sorted by distance, with no annotated vertex left
   * out that is nearer than a candidate, pairs the nearest annotated vertex
   * with the nearest annotated vertex of another plate.
   */
  lemma {:induction false} ScanClosest(c: seq<nat>, pts: seq<Vec3>, q: Vec3, owner: seq<nat>, plateCount: nat, j: nat)
    requires SortedBy(c, pts, q)
    requires forall i :: 0 <= i < |c| ==> c[i] < |owner| && owner[c[i]] < plateCount
    requires forall x, i :: 0 <= x < |pts| && Annotated(owner, plateCount, x) && x !in c && 0 <= i < |c| ==>
      Dist2(pts[c[i]], q) <= Dist2(pts[x], q)
    requires FirstOther(c, owner, j)
    ensures ClosestAnnotated(pts, q, owner, plateCount, c[0])
    ensures ClosestOther(pts, q, owner, plateCount, c[0], c[j])
  {
    forall x | 0 <= x < |pts| && Annotated(owner, plateCount, x)
      ensures Dist2(pts[c[0]], q) <= Dist2(pts[x], q)
    {
      if x in c {
        var t :| 0 <= t < |c| && c[t] == x;
        if t > 0 {
          assert Dist2(pts[c[0]], q) <= Dist2(pts[c[t]], q);
        }
      }
    }
    forall y | 0 <= y < |pts| && Annotated(owner, plateCount, y) && owner[y] != owner[c[0]]
      ensures Dist2(pts[c[j]], q) <= Dist2(pts[y], q)
    {
      if y in c {
        var t :| 0 <= t < |c| && c[t] == y;
        assert t >= j;
        if t > j {
          assert Dist2(pts[c[j]], q) <= Dist2(pts[c[t]], q);
        }
      }
    }
  }

  /** Under the tree's law, the pair found among the candidates of one answer is the closest pair. */
  lemma KnnPairClosest(knn: (Vec3, nat) -> seq<nat>, pts: seq<Vec3>, q: Vec3, k: nat, owner: seq<nat>, plateCount: nat, j: nat)
    requires var c := AnnotatedOf(knn(q, k), owner, plateCount);
      (forall i :: 0 <= i < |c| ==> c[i] < |owner|) && FirstOther(c, owner, j)
    ensures var c := AnnotatedOf(knn(q, k), owner, plateCount);
      KnnLaw(knn, pts) ==>
        && ClosestAnnotated(pts, q, owner, plateCount, c[0])
        && ClosestOther(pts, q, owner, plateCount, c[0], c[j])
  {
    var r := knn(q, k);
    var c := AnnotatedOf(r, owner, plateCount);
    if KnnLaw(knn, pts) {
      assert KnnAnswer(r, pts, q, k);
      AnnotatedOfSorted(r, owner, plateCount, pts, q);
      forall x, i | 0 <= x < |pts| && Annotated(owner, plateCount, x) && x !in c && 0 <= i < |c|
        ensures Dist2(pts[c[i]], q) <= Dist2(pts[x], q)
      {
        assert c[i] in r;
        var t :| 0 <= t < |r| && r[t] == c[i];
      }
      ScanClosest(c, pts, q, owner, plateCount, j);
    }
  }

  // ---------------------------------------------------------------------------
  // The exhaustive fallback

  /** One entry of the fallback list: a squared distance and a vertex index. */
  datatype Entry = Entry(d2: real, index: nat)

  /** The order std::sort puts pairs in: by distance, then by index. */
  predicate LexLe(a: Entry, b: Entry)
  {
    a.d2 < b.d2 || (a.d2 == b.d2 && a.index <= b.index)
  }

  predicate SortedEntries(s: seq<Entry>)
  {
    forall i, j :: 0 <= i < j < |s| ==> LexLe(s[i], s[j])
  }

  /** One step of insertion sort: e placed before the first entry it does not follow. */
  function Insert(e: Entry, s: seq<Entry>): (r: seq<Entry>)
    ensures multiset(r) == multiset(s) + multiset{e}
    decreases |s|
  {
    if s == [] then [e]
    else if LexLe(e, s[0]) then [e] + s
    else
      assert s == [s[0]] + s[1..];
      [s[0]] + Insert(e, s[1..])
  }

  /** Inserting into a sorted list keeps it sorted. */
  lemma {:induction false} InsertSorted(e: Entry, s: seq<Entry>)
    requires SortedEntries(s)
    ensures SortedEntries(Insert(e, s))
    decreases |s|
  {
    if s != [] && !LexLe(e, s[0]) {
      var rest := Insert(e, s[1..]);
      InsertSorted(e, s[1..]);
      forall x | x in rest
        ensures LexLe(s[0], x)
      {
        assert x in multiset(rest);
        assert x == e || x in multiset(s[1..]);
      }
    }
  }

  /** std::sort of the fallback list, by insertion. */
  function Sort(s: seq<Entry>): (r: seq<Entry>)
    ensures SortedEntries(r) && multiset(r) == multiset(s)
    decreases |s|
  {
    if s == [] then []
    else
      assert s == [s[0]] + s[1..];
      InsertSorted(s[0], Sort(s[1..]));
      Insert(s[0], Sort(s[1..]))
  }

  /** The entry carries the squared distance of its vertex to q. */
  predicate Measured(e: Entry, pts: seq<Vec3>, q: Vec3)
  {
    e.index < |pts| && e.d2 == Dist2(pts[e.index], q)
  }

  /** The entries are measured, annotated, and list every annotated vertex below n. */
  predicate EntriesUpTo(entries: seq<Entry>, pts: seq<Vec3>, q: Vec3, owner: seq<nat>, plateCount: nat, n: nat)
  {
    && (forall e :: e in entries ==> Measured(e, pts, q) && Annotated(owner, plateCount, e.index))
    && (forall x :: 0 <= x < n && x < |pts| && Annotated(owner, plateCount, x) ==> Entry(Dist2(pts[x], q), x) in entries)
  }

  function Indices(s: seq<Entry>): (c: seq<nat>)
    ensures |c| == |s| && forall i :: 0 <= i < |s| ==> c[i] == s[i].index
  {
    seq(|s|, i requires 0 <= i < |s| => s[i].index)
  }

  /** The sorted entries give the scan its candidates: sorted by distance, and none left out. */
  lemma SortedCandidates(entries: seq<Entry>, pts: seq<Vec3>, q: Vec3, owner: seq<nat>, plateCount: nat)
    requires EntriesUpTo(entries, pts, q, owner, plateCount, |pts|)
    ensures var c := Indices(Sort(entries));
      && SortedBy(c, pts, q)
      && (forall i :: 0 <= i < |c| ==> Annotated(owner, plateCount, c[i]))
      && (forall x :: 0 <= x < |pts| && Annotated(owner, plateCount, x) ==> x in c)
  {
    var sorted := Sort(entries);
    var c := Indices(sorted);
    forall i | 0 <= i < |sorted|
      ensures Measured(sorted[i], pts, q) && Annotated(owner, plateCount, sorted[i].index)
    {
      assert sorted[i] in multiset(sorted);
    }
    forall x | 0 <= x < |pts| && Annotated(owner, plateCount, x)
      ensures x in c
    {
      var e := Entry(Dist2(pts[x], q), x);
      assert e in multiset(sorted);
      var t :| 0 <= t < |sorted| && sorted[t] == e;
      assert c[t] == x;
    }
  }

  // ---------------------------------------------------------------------------
  // The tree

  class SphericalKDTree {
    /** m_pointsNormalized */
    var normalized: seq<Vec3>
    /** The kd-tree nodes, each carrying the index of its point. */
    var nodes: seq<nat>
    /** k_nearest_neighbors of the tree built over the nodes. */
    const knn: (Vec3, nat) -> seq<nat>
    const m: MathLib

    /** Point i is stored projected onto the unit sphere, under index i. */
    constructor (points: seq<Vec3>, knn: (Vec3, nat) -> seq<nat>, m: MathLib)
      ensures |normalized| == |points| && |nodes| == |points|
      ensures forall i :: 0 <= i < |points| ==> normalized[i] == Unit(points[i], m) && nodes[i] == i
      ensures this.knn == knn && this.m == m
    {
      var pn: seq<Vec3> := seq(|points|, _ => Zero);
      var ns: seq<nat> := [];
      var i := 0;
      while i < |points|
        invariant i <= |points| && |pn| == |points| && |ns| == i
        invariant forall t :: 0 <= t < i ==> pn[t] == Unit(points[t], m) && ns[t] == t
      {
        pn := pn[i := Unit(points[i], m)];
        ns := ns + [i];
        i := i + 1;
      }
      this.normalized := pn;
      this.nodes := ns;
      this.knn := knn;
      this.m := m;
    }

    /** nearest: the first index of the tree's one-nearest answer, 0 when there is none. */
    function Nearest(q: Vec3): nat
    {
      var res := knn(Unit(q, m), 1);
      if res == [] then 0 else res[0]
    }

    /** With a correct tree, nearest returns a stored point nearest to the projected query. */
    lemma NearestIsClosest(q: Vec3)
      requires KnnLaw(knn, normalized)
      ensures |normalized| == 0 ==> Nearest(q) == 0
      ensures |normalized| > 0 ==> Nearest(q) < |normalized|
      ensures |normalized| > 0 ==>
        forall x :: 0 <= x < |normalized| ==> Dist2(normalized[Nearest(q)], Unit(q, m)) <= Dist2(normalized[x], Unit(q, m))
    {
      var qn := Unit(q, m);
      var res := knn(qn, 1);
      assert KnnAnswer(res, normalized, qn, 1);
      if |normalized| > 0 {
        forall x | 0 <= x < |normalized|
          ensures Dist2(normalized[res[0]], qn) <= Dist2(normalized[x], qn)
        {
          if x in res {
            assert x == res[0];
          }
        }
      }
    }

    /** kNearest: the tree's answer for k, in the tree's order. */
    function KNearest(q: Vec3, k: nat): seq<nat>
    {
      knn(Unit(q, m), k)
    }

    /** With a correct tree, kNearest returns min(k, n) distinct stored points, nearest first, none farther than a point left out. */
    lemma KNearestAreNearest(q: Vec3, k: nat)
      requires KnnLaw(knn, normalized)
      ensures var r := KNearest(q, k);
        && |r| <= k && |r| == MinNat(k, |normalized|) && Distinct(r)
        && SortedBy(r, normalized, Unit(q, m))
        && forall x, i :: 0 <= x < |normalized| && x !in r && 0 <= i < |r| ==>
             Dist2(normalized[r[i]], Unit(q, m)) <= Dist2(normalized[x], Unit(q, m))
    {
      assert KnnAnswer(knn(Unit(q, m), k), normalized, Unit(q, m), k);
    }

    /** The fallback's list: one (squared distance, index) entry per annotated point. */
    method CollectEntries(qn: Vec3, owner: seq<nat>, plateCount: nat) returns (entries: seq<Entry>)
      ensures EntriesUpTo(entries, normalized, qn, owner, plateCount, |normalized|)
    {
      entries := [];
      var i := 0;
      while i < |normalized|
        invariant i <= |normalized|
        invariant EntriesUpTo(entries, normalized, qn, owner, plateCount, i)
      {
        if i < |owner| && owner[i] < plateCount {
          entries := entries + [Entry(Dist2(normalized[i], qn), i)];
        }
        i := i + 1;
      }
    }

    /** The fallback: every annotated point as a (distance, index) entry, sorted, then scanned. */
    method FallbackPair(qn: Vec3, owner: seq<nat>, plateCount: nat) returns (found: bool, a: nat, b: nat)
      ensures found ==> Annotated(owner, plateCount, a) && Annotated(owner, plateCount, b) && owner[a] != owner[b]
      ensures found ==> ClosestAnnotated(normalized, qn, owner, plateCount, a) && ClosestOther(normalized, qn, owner, plateCount, a, b)
      ensures PairExists(|normalized|, owner, plateCount) ==> found
    {
      var entries := CollectEntries(qn, owner, plateCount);
      found, a, b := false, 0, 0;
      PairAmongEntries(entries, normalized, qn, owner, plateCount);
      if |entries| >= 2 {
        var c := Indices(Sort(entries));
        SortedCandidates(entries, normalized, qn, owner, plateCount);
        ghost var j;
        found, a, b, j := FirstPair(c, owner);
        if found {
          ScanClosest(c, normalized, qn, owner, plateCount, j);
        }
      }
    }
    /**
     * nearestFromDifferentPlates, with the plate of vertex i given as owner[i]
     * and the plate count as plateCount: ask the tree for k = min(8, n)
     * neighbours, doubling k up to n, and return the first pair of annotated
     * candidates on different plates; when none is found, scan every annotated
     * point sorted by distance; when that finds none either, return (0, 1).
     */
    method NearestFromDifferentPlates(q: Vec3, owner: seq<nat>, plateCount: nat) returns (a: nat, b: nat)
      ensures (Annotated(owner, plateCount, a) && Annotated(owner, plateCount, b) && owner[a] != owner[b]) || (a == 0 && b == 1)
      ensures PairExists(|normalized|, owner, plateCount) ==>
        Annotated(owner, plateCount, a) && Annotated(owner, plateCount, b) && owner[a] != owner[b]
      ensures KnnLaw(knn, normalized) && PairExists(|normalized|, owner, plateCount) ==>
        ClosestAnnotated(normalized, Unit(q, m), owner, plateCount, a) && ClosestOther(normalized, Unit(q, m), owner, plateCount, a, b)
      ensures KnnLaw(knn, normalized) && !PairExists(|normalized|, owner, plateCount) ==> a == 0 && b == 1
    {
      var qn := Unit(q, m);
      var found;
      found, a, b := DoublingSearch(qn, owner, plateCount);
      if !found {
        found, a, b := FallbackPair(qn, owner, plateCount);
        if !found {
          a, b := 0, 1;
        }
      }
      if found {
        ClosestIsPair(normalized, qn, owner, plateCount, a, b);
      }
    }

    /** The tree queries of nearestFromDifferentPlates, k = min(8, n) doubling up to n. */
    method DoublingSearch(qn: Vec3, owner: seq<nat>, plateCount: nat) returns (found: bool, a: nat, b: nat)
      ensures found ==> Annotated(owner, plateCount, a) && Annotated(owner, plateCount, b) && owner[a] != owner[b]
      ensures found && KnnLaw(knn, normalized) ==>
        ClosestAnnotated(normalized, qn, owner, plateCount, a) && ClosestOther(normalized, qn, owner, plateCount, a, b)
    {
      found, a, b := false, 0, 0;
      var total := |nodes|;
      var k := MinNat(InitialK, if total > 0 then total else 1);
      while k <= total
        decreases total - k
      {
        var res := knn(qn, k);
        var c := CollectCandidates(res, owner, plateCount);
        if |c| >= 2 {
          forall i | 0 <= i < |c|
            ensures c[i] < |owner|
          {
            assert c[i] in c;
          }
          ghost var j;
          found, a, b, j := FirstPair(c, owner);
          if found {
            KnnPairClosest(knn, normalized, qn, k, owner, plateCount, j);
            return;
          }
        }
        if k == total {
          break;
        }
        k := MinNat(k * 2, total);
      }
    }
  }

  /** A closest pair is a pair of annotated points on different plates. */
  lemma ClosestIsPair(pts: seq<Vec3>, q: Vec3, owner: seq<nat>, plateCount: nat, a: nat, b: nat)
    requires a < |owner|
    ensures ClosestAnnotated(pts, q, owner, plateCount, a) && ClosestOther(pts, q, owner, plateCount, a, b) ==>
      PairExists(|pts|, owner, plateCount)
  {
  }

  /** When two annotated points lie on different plates, the sorted list has a candidate off the first one's plate. */
  lemma PairAmongEntries(entries: seq<Entry>, pts: seq<Vec3>, q: Vec3, owner: seq<nat>, plateCount: nat)
    requires EntriesUpTo(entries, pts, q, owner, plateCount, |pts|)
    ensures PairExists(|pts|, owner, plateCount) ==>
      var c := Indices(Sort(entries));
      && |entries| >= 2 && |c| > 0 && (forall i :: 0 <= i < |c| ==> c[i] < |owner|)
      && exists t :: 0 <= t < |c| && owner[c[t]] != owner[c[0]]
  {
    SortedCandidates(entries, pts, q, owner, plateCount);
    if PairExists(|pts|, owner, plateCount) {
      var x, y :| 0 <= x < |pts| && 0 <= y < |pts| && Annotated(owner, plateCount, x)
        && Annotated(owner, plateCount, y) && owner[x] != owner[y];
      TwoEntries(entries, Entry(Dist2(pts[x], q), x), Entry(Dist2(pts[y], q), y));
      var c := Indices(Sort(entries));
      var tx :| 0 <= tx < |c| && c[tx] == x;
      var ty :| 0 <= ty < |c| && c[ty] == y;
      assert owner[c[tx]] != owner[c[0]] || owner[c[ty]] != owner[c[0]];
    }
  }

  /** Two different entries cannot fit in a list shorter than two. */
  lemma TwoEntries(entries: seq<Entry>, e: Entry, f: Entry)
    requires e in entries && f in entries && e != f
    ensures |entries| >= 2
  {
  }
}
