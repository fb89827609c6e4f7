/** Vectors, 3x3 matrices and rigid transforms over the reals.

    A rigid transform acts as x -> r * x + t.  Its inverse is built from the transpose of
    the rotation block, as the isometry mode of the linear-algebra library does, so that
    it inverts only when the block is a rotation. */
module Geometry {
  import opened Sums

  datatype Vec3 = Vec3(x: real, y: real, z: real)

  /** A matrix, by rows. */
  datatype Mat3 = Mat3(a: Vec3, b: Vec3, c: Vec3)

  datatype Isometry = Isometry(r: Mat3, t: Vec3)

  const ORIGIN := Vec3(0.0, 0.0, 0.0)
  const UNIT := Mat3(Vec3(1.0, 0.0, 0.0), Vec3(0.0, 1.0, 0.0), Vec3(0.0, 0.0, 1.0))
  const IDENTITY := Isometry(UNIT, ORIGIN)

  function Add(u: Vec3, v: Vec3): Vec3 { Vec3(u.x + v.x, u.y + v.y, u.z + v.z) }

  function Sub(u: Vec3, v: Vec3): Vec3 { Vec3(u.x - v.x, u.y - v.y, u.z - v.z) }

  function Scale(k: real, v: Vec3): Vec3 { Vec3(k * v.x, k * v.y, k * v.z) }

  function Dot(u: Vec3, v: Vec3): real { u.x * v.x + u.y * v.y + u.z * v.z }

  function Norm2(v: Vec3): real { Dot(v, v) }

  function Cross(u: Vec3, v: Vec3): Vec3
  {
    Vec3(u.y * v.z - u.z * v.y, u.z * v.x - u.x * v.z, u.x * v.y - u.y * v.x)
  }

  function Transpose(m: Mat3): Mat3
  {
    Mat3(Vec3(m.a.x, m.b.x, m.c.x), Vec3(m.a.y, m.b.y, m.c.y), Vec3(m.a.z, m.b.z, m.c.z))
  }

  function MulVec(m: Mat3, v: Vec3): Vec3 { Vec3(Dot(m.a, v), Dot(m.b, v), Dot(m.c, v)) }

  /** The row vector u^T * m. */
  function RowMul(u: Vec3, m: Mat3): Vec3
  {
    Vec3(u.x * m.a.x + u.y * m.b.x + u.z * m.c.x,
         u.x * m.a.y + u.y * m.b.y + u.z * m.c.y,
         u.x * m.a.z + u.y * m.b.z + u.z * m.c.z)
  }

  function Mul(m: Mat3, n: Mat3): Mat3 { Mat3(RowMul(m.a, n), RowMul(m.b, n), RowMul(m.c, n)) }

  function Det(m: Mat3): real { Dot(m.a, Cross(m.b, m.c)) }

  predicate IsOrthogonal(m: Mat3) { Mul(Transpose(m), m) == UNIT }

  predicate IsRotation(m: Mat3) { IsOrthogonal(m) && Det(m) == 1.0 }

  const TOLERANCE := 0.000001

  function SquaredSum(m: Mat3): real { Norm2(m.a) + Norm2(m.b) + Norm2(m.c) }

  /** Matrices that differ little in relation to their size. */
  predicate IsApprox(m: Mat3, n: Mat3, precision: real)
  {
    var difference := SquaredSum(Mat3(Sub(m.a, n.a), Sub(m.b, n.b), Sub(m.c, n.c)));
    difference <= precision * precision * SquaredSum(m) && difference <= precision * precision * SquaredSum(n)
  }

  /** The test applied to a rotation matrix handed in by a caller, at the precision of the
      library's comparison of matrices. */
  predicate PassesRotationTest(m: Mat3, precision: real)
  {
    IsApprox(Mul(Transpose(m), m), UNIT, precision) && -TOLERANCE < Det(m) - 1.0 < TOLERANCE
  }

  lemma SameIsApprox(m: Mat3, precision: real)
    ensures IsApprox(m, m, precision)
  {
    var k := precision * precision;
    assert k >= 0.0 && SquaredSum(m) >= 0.0;
    assert k * SquaredSum(m) >= 0.0;
    assert SquaredSum(Mat3(ORIGIN, ORIGIN, ORIGIN)) == 0.0;
    assert Sub(m.a, m.a) == ORIGIN && Sub(m.b, m.b) == ORIGIN && Sub(m.c, m.c) == ORIGIN;
  }

  /** Rotations pass the test whatever its precision is. */
  lemma RotationPasses(m: Mat3, precision: real)
    requires IsRotation(m)
    ensures PassesRotationTest(m, precision)
  {
    SameIsApprox(UNIT, precision);
  }

  function RotationTest(precision: real): Mat3 -> bool { (m: Mat3) => PassesRotationTest(m, precision) }

  lemma TestAcceptsRotations(precision: real)
    ensures forall m | IsRotation(m) :: RotationTest(precision)(m)
  {
    forall m | IsRotation(m)
      ensures RotationTest(precision)(m)
    {
      RotationPasses(m, precision);
    }
  }

  /** The rotation block is orthogonal by rows and by columns. */
  predicate IsRigid(f: Isometry) { IsOrthogonal(f.r) && IsOrthogonal(Transpose(f.r)) }

  function Apply(f: Isometry, p: Vec3): Vec3 { Add(MulVec(f.r, p), f.t) }

  /** The transform "first g, then f". */
  function Compose(f: Isometry, g: Isometry): Isometry
  {
    Isometry(Mul(f.r, g.r), Add(MulVec(f.r, g.t), f.t))
  }

  function Inverse(f: Isometry): Isometry
  {
    Isometry(Transpose(f.r), Scale(-1.0, MulVec(Transpose(f.r), f.t)))
  }

  // ----- matrix algebra

  lemma DotAssoc(u: Vec3, m: Mat3, v: Vec3)
    ensures Dot(RowMul(u, m), v) == Dot(u, MulVec(m, v))
  {
  }

  lemma RowMulAssoc(u: Vec3, m: Mat3, n: Mat3)
    ensures RowMul(RowMul(u, m), n) == RowMul(u, Mul(m, n))
  {
    DotAssoc(u, m, Vec3(n.a.x, n.b.x, n.c.x));
    DotAssoc(u, m, Vec3(n.a.y, n.b.y, n.c.y));
    DotAssoc(u, m, Vec3(n.a.z, n.b.z, n.c.z));
  }

  lemma MulAssoc(l: Mat3, m: Mat3, n: Mat3)
    ensures Mul(Mul(l, m), n) == Mul(l, Mul(m, n))
  {
    RowMulAssoc(l.a, m, n);
    RowMulAssoc(l.b, m, n);
    RowMulAssoc(l.c, m, n);
  }

  lemma MulVecAssoc(m: Mat3, n: Mat3, v: Vec3)
    ensures MulVec(Mul(m, n), v) == MulVec(m, MulVec(n, v))
  {
    DotAssoc(m.a, n, v);
    DotAssoc(m.b, n, v);
    DotAssoc(m.c, n, v);
  }

  lemma MulUnit(m: Mat3)
    ensures Mul(m, UNIT) == m && Mul(UNIT, m) == m
  {
  }

  /** The adjugate, whose columns are the cross products of the rows. */
  function Adjugate(m: Mat3): Mat3
  {
    Transpose(Mat3(Cross(m.b, m.c), Cross(m.c, m.a), Cross(m.a, m.b)))
  }

  lemma CrossOrthogonal(u: Vec3, v: Vec3)
    ensures Dot(u, Cross(u, v)) == 0.0 && Dot(v, Cross(u, v)) == 0.0
  {
  }

  lemma CrossCyclic(u: Vec3, v: Vec3, w: Vec3)
    ensures Dot(u, Cross(v, w)) == Dot(v, Cross(w, u))
  {
  }

  lemma RowMulTranspose(u: Vec3, m: Mat3)
    ensures RowMul(u, Transpose(m)) == Vec3(Dot(u, m.a), Dot(u, m.b), Dot(u, m.c))
  {
  }

  // ----- quaternions

  datatype Quaternion = Quaternion(w: real, x: real, y: real, z: real)

  function QuaternionNorm2(q: Quaternion): real
  {
    Times(q.w, q.w) + Times(q.x, q.x) + Times(q.y, q.y) + Times(q.z, q.z)
  }

  predicate IsUnit(q: Quaternion) { QuaternionNorm2(q) == 1.0 }

  /** The test applied to a quaternion handed in by a caller: its norm is within the tolerance
      of one. */
  predicate PassesUnitTest(q: Quaternion)
  {
    (1.0 - TOLERANCE) * (1.0 - TOLERANCE) < QuaternionNorm2(q) < (1.0 + TOLERANCE) * (1.0 + TOLERANCE)
  }

  lemma UnitPasses(q: Quaternion)
    requires IsUnit(q)
    ensures PassesUnitTest(q)
  {
  }

  /** The matrix that the linear-algebra library makes of a quaternion. */
  function ToMatrix(q: Quaternion): Mat3
  {
    var (tx, ty, tz) := (2.0 * q.x, 2.0 * q.y, 2.0 * q.z);
    Mat3(Vec3(1.0 - (Times(ty, q.y) + Times(tz, q.z)), Times(ty, q.x) - Times(tz, q.w),
              Times(tz, q.x) + Times(ty, q.w)),
         Vec3(Times(ty, q.x) + Times(tz, q.w), 1.0 - (Times(tx, q.x) + Times(tz, q.z)),
              Times(tz, q.y) - Times(tx, q.w)),
         Vec3(Times(tz, q.x) - Times(ty, q.w), Times(tz, q.y) + Times(tx, q.w),
              1.0 - (Times(tx, q.x) + Times(ty, q.y))))
  }

  /** The parts of a column along its own axis and along the next two. */
  function Along(w: real, x: real, y: real, z: real): real { Times(w, w) + Times(x, x) - Times(y, y) - Times(z, z) }

  function Ahead(w: real, x: real, y: real, z: real): real { 2.0 * (Times(x, y) + Times(w, z)) }

  function Behind(w: real, x: real, y: real, z: real): real { 2.0 * (Times(x, z) - Times(w, y)) }

  /** The first column of the matrix; the other two are the same about the next axes. */
  function Column(w: real, x: real, y: real, z: real): Vec3
  {
    Vec3(Along(w, x, y, z), Ahead(w, x, y, z), Behind(w, x, y, z))
  }

  function Cycled(v: Vec3): Vec3 { Vec3(v.z, v.x, v.y) }

  lemma TimesTwice(a: real, b: real)
    ensures Times(2.0 * a, b) == 2.0 * Times(a, b) && Times(a, b) == Times(b, a)
  {
  }

  lemma ColumnNorm(w: real, x: real, y: real, z: real)
    ensures Norm2(Column(w, x, y, z)) ==
            Times(QuaternionNorm2(Quaternion(w, x, y, z)), QuaternionNorm2(Quaternion(w, x, y, z)))
  {
    NormPolynomial(w, x, y, z);
    NormOfParts(Along(w, x, y, z), Ahead(w, x, y, z), Behind(w, x, y, z));
  }

  lemma NormOfParts(a: real, b: real, c: real)
    ensures Norm2(Vec3(a, b, c)) == Times(a, a) + Times(b, b) + Times(c, c)
  {
  }

  lemma NormPolynomial(w: real, x: real, y: real, z: real)
    ensures Times(w * w + x * x - y * y - z * z, w * w + x * x - y * y - z * z)
          + Times(2.0 * (x * y + w * z), 2.0 * (x * y + w * z)) + Times(2.0 * (x * z - w * y), 2.0 * (x * z - w * y))
         == Times(w * w + x * x + y * y + z * z, w * w + x * x + y * y + z * z)
  {
  }

  /** The column of the next axis is orthogonal. */
  lemma ColumnsOrthogonal(w: real, x: real, y: real, z: real)
    ensures Dot(Column(w, x, y, z), Cycled(Column(w, y, z, x))) == 0.0
  {
    DotPolynomial(w, x, y, z);
    DotOfParts(Column(w, x, y, z), Cycled(Column(w, y, z, x)));
  }

  lemma DotOfParts(u: Vec3, v: Vec3)
    ensures Dot(u, v) == Times(u.x, v.x) + Times(u.y, v.y) + Times(u.z, v.z)
  {
  }

  lemma DotPolynomial(w: real, x: real, y: real, z: real)
    ensures Times(w * w + x * x - y * y - z * z, 2.0 * (y * x - w * z))
          + Times(2.0 * (x * y + w * z), w * w + y * y - z * z - x * x)
          + Times(2.0 * (x * z - w * y), 2.0 * (y * z + w * x)) == 0.0
  {
  }

  lemma CrossPolynomials(w: real, x: real, y: real, z: real)
    ensures Times(2.0 * (x * y + w * z), 2.0 * (y * z + w * x))
            - Times(2.0 * (x * z - w * y), w * w + y * y - z * z - x * x)
         == Times(w * w + x * x + y * y + z * z, 2.0 * (z * x + w * y))
    ensures Times(2.0 * (x * z - w * y), 2.0 * (y * x - w * z))
            - Times(w * w + x * x - y * y - z * z, 2.0 * (y * z + w * x))
         == Times(w * w + x * x + y * y + z * z, 2.0 * (z * y - w * x))
    ensures Times(w * w + x * x - y * y - z * z, w * w + y * y - z * z - x * x)
          - Times(2.0 * (x * y + w * z), 2.0 * (y * x - w * z))
         == Times(w * w + x * x + y * y + z * z, w * w + z * z - x * x - y * y)
  {
  }

  /** The cross product of two columns is the third one times the squared norm. */
  lemma ColumnsCross(w: real, x: real, y: real, z: real)
    ensures Cross(Column(w, x, y, z), Cycled(Column(w, y, z, x)))
         == Scale(QuaternionNorm2(Quaternion(w, x, y, z)), Cycled(Cycled(Column(w, z, x, y))))
  {
    CrossPolynomials(w, x, y, z);
    CrossOfParts(Column(w, x, y, z), Column(w, y, z, x), Column(w, z, x, y), QuaternionNorm2(Quaternion(w, x, y, z)));
  }

  lemma CrossOfParts(a: Vec3, b: Vec3, c: Vec3, n: real)
    requires Times(a.y, b.y) - Times(a.z, b.x) == Times(n, c.y)
    requires Times(a.z, b.z) - Times(a.x, b.y) == Times(n, c.z)
    requires Times(a.x, b.x) - Times(a.y, b.z) == Times(n, c.x)
    ensures Cross(a, Cycled(b)) == Scale(n, Cycled(Cycled(c)))
  {
  }

  lemma MatrixColumn(q: Quaternion)
    requires IsUnit(q)
    ensures Transpose(ToMatrix(q)).a == Column(q.w, q.x, q.y, q.z)
  {
    TimesTwice(q.y, q.y);
    TimesTwice(q.z, q.z);
    TimesTwice(q.y, q.x);
    TimesTwice(q.z, q.w);
    TimesTwice(q.z, q.x);
    TimesTwice(q.y, q.w);
  }

  /** Renaming the axes in turn renames rows and columns of the matrix. */
  lemma MatrixTurns(q: Quaternion)
    ensures var t := Transpose(ToMatrix(Quaternion(q.w, q.y, q.z, q.x)));
            Transpose(ToMatrix(q)).b == Cycled(t.a) && Transpose(ToMatrix(q)).c == Cycled(t.b)
  {
    TimesTwice(q.x, q.y);
    TimesTwice(q.y, q.x);
    TimesTwice(q.x, q.z);
    TimesTwice(q.z, q.x);
    TimesTwice(q.y, q.z);
    TimesTwice(q.z, q.y);
  }

  lemma MatrixColumns(q: Quaternion)
    requires IsUnit(q)
    ensures Transpose(ToMatrix(q)) ==
            Mat3(Column(q.w, q.x, q.y, q.z), Cycled(Column(q.w, q.y, q.z, q.x)),
                 Cycled(Cycled(Column(q.w, q.z, q.x, q.y))))
  {
    var next := Quaternion(q.w, q.y, q.z, q.x);
    var last := Quaternion(q.w, q.z, q.x, q.y);
    MatrixColumn(q);
    MatrixColumn(next);
    MatrixColumn(last);
    MatrixTurns(q);
    MatrixTurns(next);
  }

  lemma DetColumns(m: Mat3)
    ensures Det(m) == Dot(Transpose(m).c, Cross(Transpose(m).a, Transpose(m).b))
  {
  }

  lemma CycledDot(u: Vec3, v: Vec3)
    ensures Dot(Cycled(u), Cycled(v)) == Dot(u, v)
  {
  }

  /** Columns of length one and orthogonal to each other make an orthogonal matrix. */
  lemma OrthogonalByColumns(m: Mat3)
    requires var t := Transpose(m);
             && Dot(t.a, t.a) == 1.0 && Dot(t.b, t.b) == 1.0 && Dot(t.c, t.c) == 1.0
             && Dot(t.a, t.b) == 0.0 && Dot(t.b, t.c) == 0.0 && Dot(t.c, t.a) == 0.0
    ensures IsOrthogonal(m)
  {
    var t := Transpose(m);
    RowMulTranspose(t.a, t);
    RowMulTranspose(t.b, t);
    RowMulTranspose(t.c, t);
  }

  /** A unit quaternion always makes a rotation. */
  lemma QuaternionRotates(q: Quaternion)
    requires IsUnit(q)
    ensures IsRotation(ToMatrix(q))
  {
    var m := ToMatrix(q);
    var (a, b, c) := (Column(q.w, q.x, q.y, q.z), Column(q.w, q.y, q.z, q.x), Column(q.w, q.z, q.x, q.y));
    MatrixColumns(q);
    ColumnNorm(q.w, q.x, q.y, q.z);
    ColumnNorm(q.w, q.y, q.z, q.x);
    ColumnNorm(q.w, q.z, q.x, q.y);
    ColumnsOrthogonal(q.w, q.x, q.y, q.z);
    ColumnsOrthogonal(q.w, q.y, q.z, q.x);
    ColumnsOrthogonal(q.w, q.z, q.x, q.y);
    CycledDot(b, b);
    CycledDot(c, c);
    CycledDot(Cycled(c), Cycled(c));
    CycledDot(b, Cycled(c));
    CycledDot(c, Cycled(a));
    CycledDot(Cycled(c), Cycled(Cycled(a)));
    assert Cycled(Cycled(Cycled(a))) == a;
    OrthogonalByColumns(m);
    ColumnsCross(q.w, q.x, q.y, q.z);
    DetColumns(m);
    assert Scale(1.0, Transpose(m).c) == Transpose(m).c;
  }

  // ----- which way a quaternion turns

  function Hamilton(p: Quaternion, q: Quaternion): Quaternion
  {
    Quaternion(Times(p.w, q.w) - Times(p.x, q.x) - Times(p.y, q.y) - Times(p.z, q.z),
               Times(p.w, q.x) + Times(p.x, q.w) + Times(p.y, q.z) - Times(p.z, q.y),
               Times(p.w, q.y) + Times(p.y, q.w) + Times(p.z, q.x) - Times(p.x, q.z),
               Times(p.w, q.z) + Times(p.z, q.w) + Times(p.x, q.y) - Times(p.y, q.x))
  }

  function Conjugate(q: Quaternion): Quaternion { Quaternion(q.w, -q.x, -q.y, -q.z) }

  function Pure(v: Vec3): Quaternion { Quaternion(0.0, v.x, v.y, v.z) }

  /** The first component of q * v * conjugate(q), and the real part, as polynomials. */
  lemma SandwichPolynomial(w: real, x: real, y: real, z: real, a: real, b: real, c: real)
    ensures var (p, q, r, s) := (-(x * a) - y * b - z * c, w * a + y * c - z * b, w * b + z * a - x * c,
                                 w * c + x * b - y * a);
            && Times(p, w) + Times(q, x) + Times(r, y) + Times(s, z) == 0.0
            && Times(q, w) - Times(p, x) - Times(r, z) + Times(s, y) ==
                 Times(w * w + x * x - y * y - z * z, a) + Times(2.0 * (y * x - w * z), b)
                 + Times(2.0 * (z * x + w * y), c)
  {
  }

  /** The same with names for the components of q * v and for the parts of the matrix. */
  lemma SandwichNamed(q: Quaternion, v: Vec3, h: Quaternion, along: real, behind: real, ahead: real)
    requires h.w == -(q.x * v.x) - q.y * v.y - q.z * v.z && h.x == q.w * v.x + q.y * v.z - q.z * v.y
    requires h.y == q.w * v.y + q.z * v.x - q.x * v.z && h.z == q.w * v.z + q.x * v.y - q.y * v.x
    requires along == q.w * q.w + q.x * q.x - q.y * q.y - q.z * q.z
    requires behind == 2.0 * (q.y * q.x - q.w * q.z) && ahead == 2.0 * (q.z * q.x + q.w * q.y)
    ensures Times(h.w, q.w) + Times(h.x, q.x) + Times(h.y, q.y) + Times(h.z, q.z) == 0.0
    ensures Times(h.x, q.w) - Times(h.w, q.x) - Times(h.y, q.z) + Times(h.z, q.y)
         == Times(along, v.x) + Times(behind, v.y) + Times(ahead, v.z)
  {
    SandwichPolynomial(q.w, q.x, q.y, q.z, v.x, v.y, v.z);
  }

  lemma TimesPure(q: Quaternion, v: Vec3)
    ensures Hamilton(q, Pure(v)) ==
              Quaternion(-(q.x * v.x) - q.y * v.y - q.z * v.z, q.w * v.x + q.y * v.z - q.z * v.y,
                         q.w * v.y + q.z * v.x - q.x * v.z, q.w * v.z + q.x * v.y - q.y * v.x)
  {
  }

  lemma TimesConjugate(h: Quaternion, q: Quaternion)
    ensures var t := Hamilton(h, Conjugate(q));
            && t.w == Times(h.w, q.w) + Times(h.x, q.x) + Times(h.y, q.y) + Times(h.z, q.z)
            && t.x == Times(h.x, q.w) - Times(h.w, q.x) - Times(h.y, q.z) + Times(h.z, q.y)
  {
  }

  lemma ColumnParts(w: real, x: real, y: real, z: real)
    ensures Along(w, x, y, z) == w * w + x * x - y * y - z * z
    ensures Ahead(w, x, y, z) == 2.0 * (x * y + w * z) && Behind(w, x, y, z) == 2.0 * (x * z - w * y)
  {
  }

  lemma SandwichFirst(q: Quaternion, v: Vec3)
    ensures var t := Hamilton(Hamilton(q, Pure(v)), Conjugate(q));
            && t.w == 0.0
            && t.x == Times(Along(q.w, q.x, q.y, q.z), v.x) + Times(Behind(q.w, q.y, q.z, q.x), v.y)
                      + Times(Ahead(q.w, q.z, q.x, q.y), v.z)
  {
    var h := Hamilton(q, Pure(v));
    TimesPure(q, v);
    TimesConjugate(h, q);
    ColumnParts(q.w, q.x, q.y, q.z);
    ColumnParts(q.w, q.y, q.z, q.x);
    ColumnParts(q.w, q.z, q.x, q.y);
    SandwichNamed(q, v, h, Along(q.w, q.x, q.y, q.z), Behind(q.w, q.y, q.z, q.x), Ahead(q.w, q.z, q.x, q.y));
  }

  /** Renaming the axes in turn renames the components of a product. */
  lemma HamiltonTurns(p: Quaternion, q: Quaternion)
    ensures Hamilton(Turned(p), Turned(q)) == Turned(Hamilton(p, q))
  {
  }

  function Turned(q: Quaternion): Quaternion { Quaternion(q.w, q.y, q.z, q.x) }

  lemma SandwichTurns(q: Quaternion, v: Vec3)
    ensures Hamilton(Hamilton(Turned(q), Turned(Pure(v))), Conjugate(Turned(q)))
         == Turned(Hamilton(Hamilton(q, Pure(v)), Conjugate(q)))
  {
    HamiltonTurns(q, Pure(v));
    HamiltonTurns(Hamilton(q, Pure(v)), Conjugate(q));
  }

  lemma MulVecByColumns(m: Mat3, v: Vec3)
    ensures var t := Transpose(m);
            MulVec(m, v) == Vec3(Times(t.a.x, v.x) + Times(t.b.x, v.y) + Times(t.c.x, v.z),
                                 Times(t.a.y, v.x) + Times(t.b.y, v.y) + Times(t.c.y, v.z),
                                 Times(t.a.z, v.x) + Times(t.b.z, v.y) + Times(t.c.z, v.z))
  {
  }

  /** The matrix of a unit quaternion turns a vector v to q * v * conjugate(q), not the other way. */
  lemma QuaternionTurns(q: Quaternion, v: Vec3)
    requires IsUnit(q)
    ensures Hamilton(Hamilton(q, Pure(v)), Conjugate(q)) == Pure(MulVec(ToMatrix(q), v))
  {
    var next := Vec3(v.y, v.z, v.x);
    var last := Vec3(v.z, v.x, v.y);
    MatrixColumns(q);
    MulVecByColumns(ToMatrix(q), v);
    SandwichFirst(q, v);
    SandwichFirst(Turned(q), next);
    SandwichFirst(Turned(Turned(q)), last);
    SandwichTurns(q, v);
    SandwichTurns(Turned(q), next);
  }

  // ----- closure of rotations

  lemma TransposeMul(m: Mat3, n: Mat3)
    ensures Transpose(Mul(m, n)) == Mul(Transpose(n), Transpose(m))
  {
  }

  lemma OrthogonalMul(m: Mat3, n: Mat3)
    requires IsOrthogonal(m) && IsOrthogonal(n)
    ensures IsOrthogonal(Mul(m, n))
  {
    var (tm, tn) := (Transpose(m), Transpose(n));
    calc {
      Mul(Transpose(Mul(m, n)), Mul(m, n));
      { TransposeMul(m, n); }
      Mul(Mul(tn, tm), Mul(m, n));
      { MulAssoc(tn, tm, Mul(m, n)); MulAssoc(tm, m, n); }
      Mul(tn, Mul(Mul(tm, m), n));
      { MulUnit(n); }
      UNIT;
    }
  }

  lemma MulVecAdd(m: Mat3, u: Vec3, v: Vec3)
    ensures MulVec(m, Add(u, v)) == Add(MulVec(m, u), MulVec(m, v))
  {
  }

  lemma MulVecScale(m: Mat3, k: real, v: Vec3)
    ensures MulVec(m, Scale(k, v)) == Scale(k, MulVec(m, v))
  {
  }

  // ----- orthogonal by columns is orthogonal by rows

  function ScaleRows(k: real, m: Mat3): Mat3 { Mat3(Scale(k, m.a), Scale(k, m.b), Scale(k, m.c)) }

  lemma MulAdjugateDet(m: Mat3)
    ensures Mul(m, Adjugate(m)) == ScaleRows(Det(m), UNIT)
  {
    var cofactors := Mat3(Cross(m.b, m.c), Cross(m.c, m.a), Cross(m.a, m.b));
    RowMulTranspose(m.a, cofactors);
    RowMulTranspose(m.b, cofactors);
    RowMulTranspose(m.c, cofactors);
    CrossOrthogonal(m.b, m.c);
    CrossOrthogonal(m.c, m.a);
    CrossOrthogonal(m.a, m.b);
    CrossCyclic(m.a, m.b, m.c);
    CrossCyclic(m.b, m.c, m.a);
  }

  lemma MulScaledUnit(m: Mat3, k: real)
    ensures Mul(m, ScaleRows(k, UNIT)) == ScaleRows(k, m)
  {
  }

  lemma MulScaled(m: Mat3, k: real, n: Mat3)
    ensures Mul(m, ScaleRows(k, n)) == ScaleRows(k, Mul(m, n))
  {
    MulScaledUnit(n, k);
    MulAssoc(m, n, ScaleRows(k, UNIT));
    MulScaledUnit(Mul(m, n), k);
  }

  /** Lagrange's identity. */
  lemma CrossNorm(u: Vec3, v: Vec3)
    ensures Norm2(Cross(u, v)) == Times(Norm2(u), Norm2(v)) - Times(Dot(u, v), Dot(u, v))
  {
  }

  /** Two orthonormal columns have a cross product, so that not all cofactors vanish. */
  lemma OrthogonalNotSingular(m: Mat3)
    requires IsOrthogonal(m)
    ensures Adjugate(m) != ScaleRows(0.0, m)
  {
    var (u, v) := (Transpose(m).a, Transpose(m).b);
    assert Norm2(u) == 1.0 && Norm2(v) == 1.0 && Dot(u, v) == 0.0;
    CrossNorm(u, v);
    assert Norm2(Cross(u, v)) == 1.0;
    assert Cross(u, v) == Adjugate(m).c;
    assert ScaleRows(0.0, m).c == ORIGIN && Norm2(ORIGIN) == 0.0;
  }

  /** The transpose of any orthogonal matrix inverts it on the other side as well. */
  lemma OrthogonalTranspose(m: Mat3)
    requires IsOrthogonal(m)
    ensures IsOrthogonal(Transpose(m))
  {
    var (t, adj, d) := (Transpose(m), Adjugate(m), Det(m));
    calc {
      adj;
      { MulUnit(adj); MulAssoc(t, m, adj); }
      Mul(t, Mul(m, adj));
      { MulAdjugateDet(m); MulScaledUnit(t, d); }
      ScaleRows(d, t);
    }
    OrthogonalNotSingular(m);
    MulAdjugateDet(m);
    MulScaled(m, d, t);
    assert ScaleRows(0.0, t) == ScaleRows(0.0, m);
    Divided(d, Mul(m, t));
  }

  lemma Divided(d: real, m: Mat3)
    requires d != 0.0 && ScaleRows(d, m) == ScaleRows(d, UNIT)
    ensures m == UNIT
  {
  }

  // ----- the group laws

  lemma ComposeAssoc(f: Isometry, g: Isometry, h: Isometry)
    ensures Compose(Compose(f, g), h) == Compose(f, Compose(g, h))
  {
    MulAssoc(f.r, g.r, h.r);
    MulVecAssoc(f.r, g.r, h.t);
    MulVecAdd(f.r, MulVec(g.r, h.t), g.t);
  }

  lemma ComposeIdentity(f: Isometry)
    ensures Compose(f, IDENTITY) == f && Compose(IDENTITY, f) == f
  {
    MulUnit(f.r);
  }

  lemma ComposeInverse(f: Isometry)
    requires IsRigid(f)
    ensures Compose(f, Inverse(f)) == IDENTITY && Compose(Inverse(f), f) == IDENTITY
  {
    var back := Transpose(f.r);
    calc {
      MulVec(f.r, Inverse(f).t);
      { MulVecScale(f.r, -1.0, MulVec(back, f.t)); }
      Scale(-1.0, MulVec(f.r, MulVec(back, f.t)));
      { MulVecAssoc(f.r, back, f.t); assert Transpose(back) == f.r; assert MulVec(UNIT, f.t) == f.t; }
      Scale(-1.0, f.t);
    }
  }

  lemma ApplyCompose(f: Isometry, g: Isometry, p: Vec3)
    ensures Apply(Compose(f, g), p) == Apply(f, Apply(g, p))
  {
    MulVecAssoc(f.r, g.r, p);
    MulVecAdd(f.r, MulVec(g.r, p), g.t);
  }

  lemma RotationIsRigid(r: Mat3, t: Vec3)
    requires IsRotation(r)
    ensures IsRigid(Isometry(r, t))
  {
    OrthogonalTranspose(r);
  }

  lemma ComposeRigid(f: Isometry, g: Isometry)
    requires IsRigid(f) && IsRigid(g)
    ensures IsRigid(Compose(f, g))
  {
    OrthogonalMul(f.r, g.r);
    OrthogonalMul(Transpose(g.r), Transpose(f.r));
    TransposeMul(f.r, g.r);
  }

  lemma InverseRigid(f: Isometry)
    requires IsRigid(f)
    ensures IsRigid(Inverse(f)) && Inverse(Inverse(f)) == f
  {
    var i := Inverse(f);
    ComposeInverse(f);
    ComposeInverse(i);
    ComposeAssoc(f, i, Inverse(i));
    ComposeIdentity(f);
    ComposeIdentity(Inverse(i));
  }

  /** The inverse of a composition is the reversed composition of the inverses. */
  lemma InverseCompose(f: Isometry, g: Isometry)
    requires IsRigid(f) && IsRigid(g)
    ensures Inverse(Compose(f, g)) == Compose(Inverse(g), Inverse(f))
  {
    var (fg, h) := (Compose(f, g), Compose(Inverse(g), Inverse(f)));
    calc {
      Compose(fg, h);
      { ComposeAssoc(f, g, h); ComposeAssoc(g, Inverse(g), Inverse(f)); }
      Compose(f, Compose(Compose(g, Inverse(g)), Inverse(f)));
      { ComposeInverse(g); ComposeIdentity(Inverse(f)); ComposeInverse(f); }
      IDENTITY;
    }
    ComposeRigid(f, g);
    ComposeInverse(fg);
    ComposeAssoc(Inverse(fg), fg, h);
    ComposeIdentity(h);
    ComposeIdentity(Inverse(fg));
  }

  /** Rotating a vector by an orthogonal matrix keeps its length. */
  lemma OrthogonalNorm(m: Mat3, v: Vec3)
    requires IsOrthogonal(m)
    ensures Norm2(MulVec(m, v)) == Norm2(v)
  {
    // |m v|^2 == v . (m^T m v)
    var w := MulVec(m, v);
    DotAssoc(w, m, v);
    assert RowMul(w, m) == MulVec(Transpose(m), w);
    MulVecAssoc(Transpose(m), m, v);
    assert MulVec(UNIT, v) == v;
  }
}
