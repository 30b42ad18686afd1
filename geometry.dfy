/** Optional values: a missing crust record, an absent query answer. */
module Options {
  datatype Option<T> = None | Some(value: T)
}

/**
 * The 3-vector kernel the engine is written against (Vec3), over real numbers,
 * and the floating-point library calls it uses (sqrt, sin, cos, exp), which are
 * parameters of the model together with the laws the proofs rely on.
 *
 * The solver's arithmetic is weak on products, so every polynomial identity is
 * proved once over plain real variables and then instantiated at the vector
 * level, one small lemma per step.
 */
module Geometry {

  datatype Vec3 = Vec3(x: real, y: real, z: real)

  const Zero := Vec3(0.0, 0.0, 0.0)

  /** M_PI. */
  const Pi: real := 3.14159265358979323846

  function Add(a: Vec3, b: Vec3): Vec3 { Vec3(a.x + b.x, a.y + b.y, a.z + b.z) }

  function Sub(a: Vec3, b: Vec3): Vec3 { Vec3(a.x - b.x, a.y - b.y, a.z - b.z) }

  function Scale(a: Vec3, k: real): Vec3 { Vec3(a.x * k, a.y * k, a.z * k) }

  function Neg(a: Vec3): Vec3 { Vec3(-a.x, -a.y, -a.z) }

  function Dot(a: Vec3, b: Vec3): real { a.x * b.x + a.y * b.y + a.z * b.z }

  function Cross(a: Vec3, b: Vec3): Vec3 {
    Vec3(a.y * b.z - a.z * b.y, a.z * b.x - a.x * b.z, a.x * b.y - a.y * b.x)
  }

  /** t squared; kept as a named function so that facts about squares survive the solver's rewriting. */
  function Sq(t: real): real { t * t }

  /** Vec3::squareLength */
  function SqLen(a: Vec3): real { Sq(a.x) + Sq(a.y) + Sq(a.z) }

  /** a·u + b·w + c·k, written out component by component. */
  function Combination(u: Vec3, w: Vec3, k: Vec3, a: real, b: real, c: real): Vec3
  {
    Vec3(u.x * a + w.x * b + k.x * c, u.y * a + w.y * b + k.y * c, u.z * a + w.z * b + k.z * c)
  }

  // ---------------------------------------------------------------------------
  // Squares and squared lengths

  lemma PositiveProduct(p: real, q: real, r: real)
    requires p > 0.0 && q > 0.0 && r == p * q
    ensures r > 0.0
  {
  }

  lemma SquarePositive(t: real)
    requires t != 0.0
    ensures Sq(t) > 0.0
  {
    if t > 0.0 {
      PositiveProduct(t, t, Sq(t));
    } else {
      PositiveProduct(-t, -t, Sq(t));
    }
  }

  lemma SquareNonNegative(t: real)
    ensures Sq(t) >= 0.0
  {
    if t != 0.0 {
      SquarePositive(t);
    }
  }

  lemma SqLenNonNegative(a: Vec3)
    ensures SqLen(a) >= 0.0
  {
    SquareNonNegative(a.x);
    SquareNonNegative(a.y);
    SquareNonNegative(a.z);
  }

  /** Only the zero vector has squared length zero. */
  lemma SqLenZero(a: Vec3)
    ensures SqLen(a) == 0.0 <==> a == Zero
  {
    SqLenNonNegative(a);
    if a != Zero {
      SquareNonNegative(a.x);
      SquareNonNegative(a.y);
      SquareNonNegative(a.z);
      if a.x != 0.0 {
        SquarePositive(a.x);
      } else if a.y != 0.0 {
        SquarePositive(a.y);
      } else {
        SquarePositive(a.z);
      }
    }
  }

  // ---------------------------------------------------------------------------
  // The floating-point library

  /** The library functions the source calls, kept abstract. */
  datatype MathLib = MathLib(sqrt: real -> real, sin: real -> real, cos: real -> real, exp: real -> real)

  /** The facts about the library that the proofs use: its laws and its exact values at zero. */
  ghost predicate Lawful(m: MathLib)
  {
    && (forall t :: 0.0 <= t ==> 0.0 <= m.sqrt(t) && Sq(m.sqrt(t)) == t)
    && (forall a :: Sq(m.cos(a)) + Sq(m.sin(a)) == 1.0)
    && (forall a :: a <= 0.0 ==> 0.0 < m.exp(a) <= 1.0)
    && m.sqrt(0.0) == 0.0 && m.cos(0.0) == 1.0 && m.exp(0.0) == 1.0
  }

  lemma SqrtLaw(m: MathLib, t: real)
    requires Lawful(m) && 0.0 <= t
    ensures 0.0 <= m.sqrt(t) && Sq(m.sqrt(t)) == t
  {
  }

  lemma TrigLaw(m: MathLib, a: real)
    requires Lawful(m)
    ensures Sq(m.cos(a)) + Sq(m.sin(a)) == 1.0
  {
  }

  /** Vec3::length */
  function Length(a: Vec3, m: MathLib): real { m.sqrt(SqLen(a)) }

  /**
   * Vec3::normalize. Vec3.h is not part of this model; a vector of length zero
   * is taken to stay as it is.
   */
  function Normalize(a: Vec3, m: MathLib): Vec3
  {
    var len := Length(a, m);
    if len == 0.0 then a else Scale(a, 1.0 / len)
  }

  lemma RootOfZero(l: real, s: real)
    requires 0.0 <= l && Sq(l) == s
    ensures l == 0.0 <==> s == 0.0
  {
    if l != 0.0 {
      SquarePositive(l);
    }
  }

  /** Length is non-negative and zero exactly for the zero vector. */
  lemma LengthZero(a: Vec3, m: MathLib)
    requires Lawful(m)
    ensures Length(a, m) >= 0.0
    ensures Length(a, m) == 0.0 <==> a == Zero
  {
    SqLenNonNegative(a);
    SqrtLaw(m, SqLen(a));
    SqLenZero(a);
    RootOfZero(m.sqrt(SqLen(a)), SqLen(a));
  }

  lemma {:induction false} SqLenScale(a: Vec3, k: real)
    ensures SqLen(Scale(a, k)) == Sq(k) * SqLen(a)
  {
    ScaledSquare(a.x, k);
    ScaledSquare(a.y, k);
    ScaledSquare(a.z, k);
  }

  lemma {:induction false} ScaledSquare(x: real, k: real)
    ensures Sq(x * k) == Sq(k) * Sq(x)
  {
  }

  lemma {:induction false} InverseSquare(l: real, s: real)
    requires l != 0.0 && s == Sq(l)
    ensures Sq(1.0 / l) * s == 1.0
  {
  }

  /** A non-zero vector normalises to unit length. */
  lemma NormalizeIsUnit(a: Vec3, m: MathLib)
    requires Lawful(m) && a != Zero
    ensures SqLen(Normalize(a, m)) == 1.0
  {
    var l := Length(a, m);
    LengthZero(a, m);
    SqLenNonNegative(a);
    SqrtLaw(m, SqLen(a));
    SqLenScale(a, 1.0 / l);
    InverseSquare(l, SqLen(a));
  }

  // ---------------------------------------------------------------------------
  // Rodrigues' rotation

  /** Rodrigues' rotation of v about the unit axis k by the angle with cosine c and sine s. */
  function Rodrigues(v: Vec3, k: Vec3, c: real, s: real): Vec3
  {
    Add(Add(Scale(v, c), Scale(Cross(k, v), s)), Scale(k, Dot(k, v) * (1.0 - c)))
  }

  lemma {:induction false} SquareOfCombination(p: real, q: real, r: real, a: real, b: real, c: real)
    ensures Sq(p * a + q * b + r * c)
         == Sq(a) * Sq(p) + Sq(b) * Sq(q) + Sq(c) * Sq(r)
            + 2.0 * a * b * (p * q) + 2.0 * a * c * (p * r) + 2.0 * b * c * (q * r)
  {
  }

  lemma {:induction false} SumOfExpansions(
    X1: real, X2: real, X3: real, U1: real, U2: real, U3: real, V1: real, V2: real, V3: real,
    W1: real, W2: real, W3: real, P1: real, P2: real, P3: real, Q1: real, Q2: real, Q3: real,
    R1: real, R2: real, R3: real, A: real, B: real, C: real, ab: real, ac: real, bc: real)
    requires X1 == A * U1 + B * V1 + C * W1 + ab * P1 + ac * Q1 + bc * R1
    requires X2 == A * U2 + B * V2 + C * W2 + ab * P2 + ac * Q2 + bc * R2
    requires X3 == A * U3 + B * V3 + C * W3 + ab * P3 + ac * Q3 + bc * R3
    ensures X1 + X2 + X3 == A * (U1 + U2 + U3) + B * (V1 + V2 + V3) + C * (W1 + W2 + W3)
       + ab * (P1 + P2 + P3) + ac * (Q1 + Q2 + Q3) + bc * (R1 + R2 + R3)
  {
  }

  lemma CombinationSquares(u: Vec3, w: Vec3, k: Vec3, a: real, b: real, c: real)
    ensures SqLen(Combination(u, w, k, a, b, c))
         == Sq(u.x * a + w.x * b + k.x * c) + Sq(u.y * a + w.y * b + k.y * c) + Sq(u.z * a + w.z * b + k.z * c)
  {
  }

  lemma {:induction false} ExpandSquares(ux: real, uy: real, uz: real, wx: real, wy: real, wz: real,
                                         kx: real, ky: real, kz: real, a: real, b: real, c: real)
    ensures Sq(ux * a + wx * b + kx * c) + Sq(uy * a + wy * b + ky * c) + Sq(uz * a + wz * b + kz * c)
         == Sq(a) * (Sq(ux) + Sq(uy) + Sq(uz)) + Sq(b) * (Sq(wx) + Sq(wy) + Sq(wz))
          + Sq(c) * (Sq(kx) + Sq(ky) + Sq(kz))
          + 2.0 * a * b * (ux * wx + uy * wy + uz * wz) + 2.0 * a * c * (ux * kx + uy * ky + uz * kz)
          + 2.0 * b * c * (wx * kx + wy * ky + wz * kz)
  {
    SquareOfCombination(ux, wx, kx, a, b, c);
    SquareOfCombination(uy, wy, ky, a, b, c);
    SquareOfCombination(uz, wz, kz, a, b, c);
    SumOfExpansions(
      Sq(ux * a + wx * b + kx * c), Sq(uy * a + wy * b + ky * c), Sq(uz * a + wz * b + kz * c),
      Sq(ux), Sq(uy), Sq(uz), Sq(wx), Sq(wy), Sq(wz), Sq(kx), Sq(ky), Sq(kz),
      ux * wx, uy * wy, uz * wz, ux * kx, uy * ky, uz * kz, wx * kx, wy * ky, wz * kz,
      Sq(a), Sq(b), Sq(c), 2.0 * a * b, 2.0 * a * c, 2.0 * b * c);
  }

  /** The same expansion, component by component. */
  lemma {:induction false} CombinationComponents(u: Vec3, w: Vec3, k: Vec3, a: real, b: real, c: real)
    ensures SqLen(Combination(u, w, k, a, b, c))
         == Sq(a) * (Sq(u.x) + Sq(u.y) + Sq(u.z)) + Sq(b) * (Sq(w.x) + Sq(w.y) + Sq(w.z))
            + Sq(c) * (Sq(k.x) + Sq(k.y) + Sq(k.z))
            + 2.0 * a * b * (u.x * w.x + u.y * w.y + u.z * w.z) + 2.0 * a * c * (u.x * k.x + u.y * k.y + u.z * k.z)
            + 2.0 * b * c * (w.x * k.x + w.y * k.y + w.z * k.z)
  {
    CombinationSquares(u, w, k, a, b, c);
    ExpandSquares(u.x, u.y, u.z, w.x, w.y, w.z, k.x, k.y, k.z, a, b, c);
    EqualTrans(SqLen(Combination(u, w, k, a, b, c)),
      Sq(u.x * a + w.x * b + k.x * c) + Sq(u.y * a + w.y * b + k.y * c) + Sq(u.z * a + w.z * b + k.z * c),
      Sq(a) * (Sq(u.x) + Sq(u.y) + Sq(u.z)) + Sq(b) * (Sq(w.x) + Sq(w.y) + Sq(w.z))
        + Sq(c) * (Sq(k.x) + Sq(k.y) + Sq(k.z))
        + 2.0 * a * b * (u.x * w.x + u.y * w.y + u.z * w.z) + 2.0 * a * c * (u.x * k.x + u.y * k.y + u.z * k.z)
        + 2.0 * b * c * (w.x * k.x + w.y * k.y + w.z * k.z));
  }

  /** Expansion of the squared length of a combination of three vectors. */
  lemma {:induction false} SqLenCombination(u: Vec3, w: Vec3, k: Vec3, a: real, b: real, c: real)
    ensures SqLen(Combination(u, w, k, a, b, c))
         == Sq(a) * SqLen(u) + Sq(b) * SqLen(w) + Sq(c) * SqLen(k)
            + 2.0 * a * b * Dot(u, w) + 2.0 * a * c * Dot(u, k) + 2.0 * b * c * Dot(w, k)
  {
    CombinationComponents(u, w, k, a, b, c);
    SubstituteSix(SqLen(Combination(u, w, k, a, b, c)), Sq(a), Sq(b), Sq(c), 2.0 * a * b, 2.0 * a * c, 2.0 * b * c,
      Sq(u.x) + Sq(u.y) + Sq(u.z), Sq(w.x) + Sq(w.y) + Sq(w.z), Sq(k.x) + Sq(k.y) + Sq(k.z),
      u.x * w.x + u.y * w.y + u.z * w.z, u.x * k.x + u.y * k.y + u.z * k.z, w.x * k.x + w.y * k.y + w.z * k.z,
      SqLen(u), SqLen(w), SqLen(k), Dot(u, w), Dot(u, k), Dot(w, k));
  }

  /** Replacing six factors by equal ones keeps a sum of six products. */
  lemma {:induction false} SubstituteSix(l: real, a: real, b: real, c: real, ab: real, ac: real, bc: real,
                                         s1: real, s2: real, s3: real, d1: real, d2: real, d3: real,
                                         t1: real, t2: real, t3: real, e1: real, e2: real, e3: real)
    requires l == a * s1 + b * s2 + c * s3 + ab * d1 + ac * d2 + bc * d3
    requires s1 == t1 && s2 == t2 && s3 == t3 && d1 == e1 && d2 == e2 && d3 == e3
    ensures l == a * t1 + b * t2 + c * t3 + ab * e1 + ac * e2 + bc * e3
  {
  }

  lemma EqualTrans(x: real, y: real, z: real)
    requires x == y && y == z
    ensures x == z
  {
  }

  /** Substitution of equals under a product, stated for the solver. */
  lemma ProductCongruent(f: real, p: real, q: real)
    requires p == q
    ensures f * p == f * q
  {
  }

  /** Substitution of equals under a square, stated for the solver. */
  lemma SquareCongruent(p: real, q: real)
    requires p == q
    ensures Sq(p) == Sq(q)
  {
  }

  lemma {:induction false} LagrangeComponents(vx: real, vy: real, vz: real, kx: real, ky: real, kz: real)
    ensures Sq(ky * vz - kz * vy) + Sq(kz * vx - kx * vz) + Sq(kx * vy - ky * vx)
         == (Sq(kx) + Sq(ky) + Sq(kz)) * (Sq(vx) + Sq(vy) + Sq(vz)) - Sq(kx * vx + ky * vy + kz * vz)
  {
  }

  /** Lagrange's identity: |k x v|^2 = |k|^2 |v|^2 - (k.v)^2. */
  lemma Lagrange(k: Vec3, v: Vec3)
    ensures SqLen(Cross(k, v)) == Gram(SqLen(k), SqLen(v), Dot(k, v))
  {
    LagrangeComponents(v.x, v.y, v.z, k.x, k.y, k.z);
    SquareCongruent(Cross(k, v).x, k.y * v.z - k.z * v.y);
    SquareCongruent(Cross(k, v).y, k.z * v.x - k.x * v.z);
    SquareCongruent(Cross(k, v).z, k.x * v.y - k.y * v.x);
    SquareCongruent(Dot(k, v), k.x * v.x + k.y * v.y + k.z * v.z);
    ProductCongruent(SqLen(k), SqLen(v), Sq(v.x) + Sq(v.y) + Sq(v.z));
    ProductCongruent(Sq(v.x) + Sq(v.y) + Sq(v.z), SqLen(k), Sq(k.x) + Sq(k.y) + Sq(k.z));
  }

  lemma {:induction false} TripleComponents(vx: real, vy: real, vz: real, kx: real, ky: real, kz: real)
    ensures vx * (ky * vz - kz * vy) + vy * (kz * vx - kx * vz) + vz * (kx * vy - ky * vx) == 0.0
    ensures (ky * vz - kz * vy) * kx + (kz * vx - kx * vz) * ky + (kx * vy - ky * vx) * kz == 0.0
  {
  }

  /** k x v is orthogonal to both k and v. */
  lemma CrossOrthogonal(k: Vec3, v: Vec3)
    ensures Dot(v, Cross(k, v)) == 0.0 && Dot(Cross(k, v), k) == 0.0
  {
    TripleComponents(v.x, v.y, v.z, k.x, k.y, k.z);
  }

  lemma DotSymmetric(a: Vec3, b: Vec3)
    ensures Dot(a, b) == Dot(b, a)
  {
  }

  /** The weight of k in Rodrigues' formula: (k . v)(1 - c), written a (1 - c). */
  function Lever(a: real, c: real): real { a * (1.0 - c) }

  /** |k|^2 |v|^2 - (k . v)^2, written over the three numbers. */
  function Gram(K: real, V: real, a: real): real { K * V - Sq(a) }

  /** The expansion of |c u + s w + t k|^2 over the squared lengths and dot products. */
  function Expansion(c: real, s: real, t: real, V: real, W: real, K: real, vw: real, vk: real, kw: real): real
  {
    Sq(c) * V + Sq(s) * W + Sq(t) * K + 2.0 * c * s * vw + 2.0 * c * t * vk + 2.0 * s * t * kw
  }

  /** The terms by which a rotation's squared length differs from |v|^2. */
  function Defect(V: real, K: real, a: real, c: real, s: real): real
  {
    (Sq(c) + Sq(s) - 1.0) * (V - Sq(a)) + (K - 1.0) * (Sq(s) * V + Sq(a) * Sq(1.0 - c))
  }

  lemma RodriguesIsCombination(v: Vec3, k: Vec3, c: real, s: real)
    ensures Rodrigues(v, k, c, s) == Combination(v, Cross(k, v), k, c, s, Lever(Dot(k, v), c))
  {
  }

  lemma {:induction false} RotationTerms(R: real, V: real, W: real, K: real, vw: real, kw: real, vk: real,
                                         a: real, c: real, s: real)
    requires R == Expansion(c, s, Lever(a, c), V, W, K, vw, vk, kw)
    requires W == Gram(K, V, a) && vw == 0.0 && kw == 0.0 && vk == a
    ensures R == V + Defect(V, K, a, c, s)
  {
  }

  /** The defect vanishes for a unit axis and c^2 + s^2 = 1. */
  lemma {:induction false} DefectVanishes(V: real, K: real, a: real, c: real, s: real)
    requires Sq(c) + Sq(s) == 1.0 && K == 1.0
    ensures Defect(V, K, a, c, s) == 0.0
  {
  }

  /** The squared length of a rotation, expanded over v, k x v and k. */
  lemma {:induction false} RodriguesSquares(v: Vec3, k: Vec3, c: real, s: real)
    ensures SqLen(Rodrigues(v, k, c, s))
         == Expansion(c, s, Lever(Dot(k, v), c), SqLen(v), SqLen(Cross(k, v)), SqLen(k),
                      Dot(v, Cross(k, v)), Dot(v, k), Dot(Cross(k, v), k))
  {
    var t := Lever(Dot(k, v), c);
    RodriguesIsCombination(v, k, c, s);
    SqLenCombination(v, Cross(k, v), k, c, s, t);
  }

  /** The squared length of a rotation is |v|^2 plus the defect. */
  lemma {:induction false} RodriguesIdentity(v: Vec3, k: Vec3, c: real, s: real)
    ensures SqLen(Rodrigues(v, k, c, s)) == SqLen(v) + Defect(SqLen(v), SqLen(k), Dot(k, v), c, s)
  {
    RodriguesSquares(v, k, c, s);
    Lagrange(k, v);
    CrossOrthogonal(k, v);
    DotSymmetric(v, k);
    RotationTerms(SqLen(Rodrigues(v, k, c, s)), SqLen(v), SqLen(Cross(k, v)), SqLen(k),
      Dot(v, Cross(k, v)), Dot(Cross(k, v), k), Dot(v, k), Dot(k, v), c, s);
  }

  /** A rotation about a unit axis keeps the distance to the origin. */
  lemma RodriguesPreservesLength(v: Vec3, k: Vec3, c: real, s: real)
    requires SqLen(k) == 1.0
    requires Sq(c) + Sq(s) == 1.0
    ensures SqLen(Rodrigues(v, k, c, s)) == SqLen(v)
  {
    RodriguesIdentity(v, k, c, s);
    DefectVanishes(SqLen(v), SqLen(k), Dot(k, v), c, s);
  }
}
