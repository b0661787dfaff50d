/** Three-dimensional vectors, 3x3 matrices and the Euler rotation built from them.
    Trigonometry is not evaluated: the elementary rotations take their cosine and
    sine as inputs, and the Euler construction takes cos/sin as function parameters. */
module Geometry {

  /** A point or displacement in world or element-local space. */
  datatype Vector = Vector(x: real, y: real, z: real)

  const Origin: Vector := Vector(0.0, 0.0, 0.0)

  /** Componentwise sum, the `+` operator on vectors. */
  function Add(a: Vector, b: Vector): (r: Vector)
    ensures Sub(r, b) == a && Sub(r, a) == b
  {
    Vector(a.x + b.x, a.y + b.y, a.z + b.z)
  }

  function Sub(a: Vector, b: Vector): Vector
  {
    Vector(a.x - b.x, a.y - b.y, a.z - b.z)
  }

  function Neg(a: Vector): Vector
  {
    Vector(-a.x, -a.y, -a.z)
  }

  function Scale(k: real, v: Vector): Vector
  {
    Vector(k * v.x, k * v.y, k * v.z)
  }

  function Dot(a: Vector, b: Vector): real
  {
    a.x * b.x + a.y * b.y + a.z * b.z
  }

  /** Python's `int()` on a float: truncation toward zero. */
  function Trunc(x: real): (n: int)
    ensures x >= 0.0 ==> n >= 0 && n as real <= x < n as real + 1.0
    ensures x < 0.0 ==> n <= 0 && n as real - 1.0 < x <= n as real
  {
    if x >= 0.0 then x.Floor else -((-x).Floor)
  }

  /** Truncation returns a whole number unchanged. */
  lemma TruncOfInt(n: int)
    ensures Trunc(n as real) == n
  {
  }

  /** A 3x3 matrix stored by rows. */
  datatype Matrix3 = Matrix3(r0: Vector, r1: Vector, r2: Vector)
  {
    function Col0(): Vector { Vector(r0.x, r1.x, r2.x) }
    function Col1(): Vector { Vector(r0.y, r1.y, r2.y) }
    function Col2(): Vector { Vector(r0.z, r1.z, r2.z) }
  }

  const Identity: Matrix3 :=
    Matrix3(Vector(1.0, 0.0, 0.0), Vector(0.0, 1.0, 0.0), Vector(0.0, 0.0, 1.0))

  /** Matrix-vector product `m * v` with `v` as a column vector. */
  function Rotate(m: Matrix3, v: Vector): (r: Vector)
    ensures m == Identity ==> r == v
  {
    Vector(Dot(m.r0, v), Dot(m.r1, v), Dot(m.r2, v))
  }

  /** Matrix product `a * b`. */
  function Mul(a: Matrix3, b: Matrix3): Matrix3
  {
    Matrix3(
      Vector(Dot(a.r0, b.Col0()), Dot(a.r0, b.Col1()), Dot(a.r0, b.Col2())),
      Vector(Dot(a.r1, b.Col0()), Dot(a.r1, b.Col1()), Dot(a.r1, b.Col2())),
      Vector(Dot(a.r2, b.Col0()), Dot(a.r2, b.Col1()), Dot(a.r2, b.Col2())))
  }

  /** Rotation about the X axis with cosine `c` and sine `s`. */
  function AboutX(c: real, s: real): Matrix3
  {
    Matrix3(Vector(1.0, 0.0, 0.0), Vector(0.0, c, -s), Vector(0.0, s, c))
  }

  /** Rotation about the Y axis with cosine `c` and sine `s`. */
  function AboutY(c: real, s: real): Matrix3
  {
    Matrix3(Vector(c, 0.0, s), Vector(0.0, 1.0, 0.0), Vector(-s, 0.0, c))
  }

  /** Rotation about the Z axis with cosine `c` and sine `s`. */
  function AboutZ(c: real, s: real): Matrix3
  {
    Matrix3(Vector(c, -s, 0.0), Vector(s, c, 0.0), Vector(0.0, 0.0, 1.0))
  }

  /** The three elementary rotations of an element, kept as factors; the element's
      rotation matrix is their product `rx * ry * rz`. */
  datatype EulerRotation = EulerRotation(rx: Matrix3, ry: Matrix3, rz: Matrix3)
  {
    function Matrix(): Matrix3
    {
      Mul(Mul(rx, ry), rz)
    }
  }

  /** The element rotation for Euler angles `rot` (radians): each factor turns about
      its own axis and so leaves that axis in place. */
  function FromEuler(rot: Vector, cos: real -> real, sin: real -> real): (r: EulerRotation)
    ensures r.rx.Col0() == r.rx.r0 == Vector(1.0, 0.0, 0.0)
    ensures r.ry.Col1() == r.ry.r1 == Vector(0.0, 1.0, 0.0)
    ensures r.rz.Col2() == r.rz.r2 == Vector(0.0, 0.0, 1.0)
  {
    EulerRotation(AboutX(cos(rot.x), sin(rot.x)), AboutY(cos(rot.y), sin(rot.y)),
                  AboutZ(cos(rot.z), sin(rot.z)))
  }

  /** Rotation is linear: it distributes over vector addition. */
  lemma RotateAdd(m: Matrix3, a: Vector, b: Vector)
    ensures Rotate(m, Add(a, b)) == Add(Rotate(m, a), Rotate(m, b))
  {
  }

  /** The product row by row equals the combination of the columns weighted by the
      vector's components. */
  lemma RotateByColumns(m: Matrix3, v: Vector)
    ensures Rotate(m, v) == Add(Add(Scale(v.x, m.Col0()), Scale(v.y, m.Col1())), Scale(v.z, m.Col2()))
  {
  }

  /** The identity matrix leaves every vector unchanged. */
  lemma RotateIdentity(v: Vector)
    ensures Rotate(Identity, v) == v
  {
  }

  lemma DotOfRotate(r: Vector, b: Matrix3, v: Vector)
    ensures Dot(Vector(Dot(r, b.Col0()), Dot(r, b.Col1()), Dot(r, b.Col2())), v)
         == Dot(r, Rotate(b, v))
  {
  }

  /** Applying a product matrix is applying the right factor first, then the left. */
  lemma RotateMul(a: Matrix3, b: Matrix3, v: Vector)
    ensures Rotate(Mul(a, b), v) == Rotate(a, Rotate(b, v))
  {
    DotOfRotate(a.r0, b, v);
    DotOfRotate(a.r1, b, v);
    DotOfRotate(a.r2, b, v);
  }

  /** The Euler rotation acts on a column vector as Z first, then Y, then X:
      the X matrix is the outermost transform. */
  lemma FromEulerOrder(rot: Vector, cos: real -> real, sin: real -> real, v: Vector)
    ensures Rotate(FromEuler(rot, cos, sin).Matrix(), v)
         == Rotate(AboutX(cos(rot.x), sin(rot.x)),
              Rotate(AboutY(cos(rot.y), sin(rot.y)),
                Rotate(AboutZ(cos(rot.z), sin(rot.z)), v)))
  {
    var rx := AboutX(cos(rot.x), sin(rot.x));
    var ry := AboutY(cos(rot.y), sin(rot.y));
    var rz := AboutZ(cos(rot.z), sin(rot.z));
    RotateMul(Mul(rx, ry), rz, v);
    RotateMul(rx, ry, Rotate(rz, v));
  }

  /** With cos 0 = 1 and sin 0 = 0, the zero Euler rotation is the identity. */
  lemma FromEulerZero(cos: real -> real, sin: real -> real)
    requires cos(0.0) == 1.0 && sin(0.0) == 0.0
    ensures FromEuler(Origin, cos, sin).Matrix() == Identity
  {
  }

  function Norm2(v: Vector): real
  {
    Dot(v, v)
  }

  /** With c^2 + s^2 = 1 each elementary rotation preserves squared length. */
  lemma ElementaryRotationsPreserveLength(c: real, s: real, v: Vector)
    requires c * c + s * s == 1.0
    ensures Norm2(Rotate(AboutX(c, s), v)) == Norm2(v)
    ensures Norm2(Rotate(AboutY(c, s), v)) == Norm2(v)
    ensures Norm2(Rotate(AboutZ(c, s), v)) == Norm2(v)
  {
    PlanarLength(c, s, v.y, v.z);
    PlanarLength(c, s, v.z, v.x);
    PlanarLength(c, s, v.x, v.y);
    assert Rotate(AboutX(c, s), v) == Vector(v.x, c * v.y - s * v.z, s * v.y + c * v.z);
    assert Rotate(AboutY(c, s), v) == Vector(c * v.x + s * v.z, v.y, c * v.z - s * v.x);
    assert Rotate(AboutZ(c, s), v) == Vector(c * v.x - s * v.y, s * v.x + c * v.y, v.z);
  }

  lemma PlanarLength(c: real, s: real, a: real, b: real)
    requires c * c + s * s == 1.0
    ensures (c * a - s * b) * (c * a - s * b) + (s * a + c * b) * (s * a + c * b) == a * a + b * b
    ensures (c * b + s * a) * (c * b + s * a) + (c * a - s * b) * (c * a - s * b) == a * a + b * b
  {
    calc {
      (c * a - s * b) * (c * a - s * b) + (s * a + c * b) * (s * a + c * b);
      (c * c + s * s) * (a * a) + (c * c + s * s) * (b * b);
      a * a + b * b;
    }
  }
}
