/** Linear algebra over homogeneous 4D vectors and 4x4 matrices, in the
    row-vector convention `y = x * M` of the math source.

    Vectors are values: the source's vector operations are straight-line
    code writing one out-parameter. Matrices appear twice: `Matrix` is the
    mathematical value the specifications talk about, and the source's
    matrix routines, which fill a `matrix_t` cell by cell through a pointer,
    are methods over a 4x4 `array2<real>` whose contracts say which `Matrix`
    the array holds afterwards. */
module LinAlg {
  import opened Scalar

  datatype Vector = Vector(x: real, y: real, z: real, w: real)

  /** `point_t` is the same structure as `vector_t`. */
  type Point = Vector

  /** `vector_add`: componentwise sum of x, y, z; `w` is always set to 1. */
  function VectorAdd(a: Vector, b: Vector): (r: Vector)
    ensures r.w == 1.0
  {
    Vector(a.x + b.x, a.y + b.y, a.z + b.z, 1.0)
  }

  /** `vector_sub`: componentwise difference of x, y, z; `w` is always set to 1. */
  function VectorSub(a: Vector, b: Vector): (r: Vector)
    ensures r.w == 1.0
  {
    Vector(a.x - b.x, a.y - b.y, a.z - b.z, 1.0)
  }

  /** `vector_dotproduct`: the 3D dot product (ignores `w`). */
  function Dot(a: Vector, b: Vector): (r: real)
    ensures a == b ==> 0.0 <= r
  {
    a.x * b.x + a.y * b.y + a.z * b.z
  }

  /** `vector_crossproduct`: the 3D cross product with `w` set to 1. */
  function Cross(a: Vector, b: Vector): (r: Vector)
    ensures r.w == 1.0
  {
    Vector(a.y * b.z - a.z * b.y, a.z * b.x - a.x * b.z, a.x * b.y - a.y * b.x, 1.0)
  }

  /** `vector_interp`: x, y, z interpolated by `t`; `w` is forced to 1. */
  function VectorInterp(a: Vector, b: Vector, t: real): (r: Vector)
    ensures r.w == 1.0
    ensures t == 0.0 ==> r == a.(w := 1.0)
    ensures t == 1.0 ==> r == b.(w := 1.0)
  {
    Vector(Interp(a.x, b.x, t), Interp(a.y, b.y, t), Interp(a.z, b.z, t), 1.0)
  }

  /** Subtracting what was added gives back the first operand (with `w` = 1). */
  lemma VectorSubAdd(a: Vector, b: Vector)
    ensures VectorSub(VectorAdd(a, b), b) == a.(w := 1.0)
    ensures VectorAdd(VectorSub(a, b), b) == a.(w := 1.0)
  {
  }

  /** The cross product is orthogonal to both of its operands. */
  lemma CrossOrthogonal(a: Vector, b: Vector)
    ensures Dot(Cross(a, b), a) == 0.0
    ensures Dot(Cross(a, b), b) == 0.0
  {
  }

  // ---------------------------------------------------------------- matrices

  /** A 4x4 matrix as its four rows, so that `m.r0.y` is `matrix_t.m[0][1]`. */
  datatype Matrix = Matrix(r0: Vector, r1: Vector, r2: Vector, r3: Vector)

  /** Component `j` of a vector, in the order x, y, z, w. */
  function Comp(v: Vector, j: int): real
    requires 0 <= j < 4
  {
    if j == 0 then v.x else if j == 1 then v.y else if j == 2 then v.z else v.w
  }

  function RowOf(m: Matrix, i: int): Vector
    requires 0 <= i < 4
  {
    if i == 0 then m.r0 else if i == 1 then m.r1 else if i == 2 then m.r2 else m.r3
  }

  /** Cell `m[i][j]`. */
  function Cell(m: Matrix, i: int, j: int): real
    requires 0 <= i < 4 && 0 <= j < 4
  {
    Comp(RowOf(m, i), j)
  }

  function VecSum(a: Vector, b: Vector): Vector {
    Vector(a.x + b.x, a.y + b.y, a.z + b.z, a.w + b.w)
  }

  function VecDifference(a: Vector, b: Vector): Vector {
    Vector(a.x - b.x, a.y - b.y, a.z - b.z, a.w - b.w)
  }

  function VecScaled(a: Vector, f: real): Vector {
    Vector(a.x * f, a.y * f, a.z * f, a.w * f)
  }

  /** Entrywise sum. */
  function Sum(a: Matrix, b: Matrix): Matrix
  {
    Matrix(VecSum(a.r0, b.r0), VecSum(a.r1, b.r1), VecSum(a.r2, b.r2), VecSum(a.r3, b.r3))
  }

  /** Entrywise difference. */
  function Difference(a: Matrix, b: Matrix): Matrix
  {
    Matrix(VecDifference(a.r0, b.r0), VecDifference(a.r1, b.r1), VecDifference(a.r2, b.r2), VecDifference(a.r3, b.r3))
  }

  /** Entrywise scaling by `f`. */
  function Scaled(a: Matrix, f: real): Matrix
  {
    Matrix(VecScaled(a.r0, f), VecScaled(a.r1, f), VecScaled(a.r2, f), VecScaled(a.r3, f))
  }

  /** `x0 * c0 + x1 * c1 + x2 * c2 + x3 * c3`: one cell of a product, or one
      component of a vector times a matrix, as a single term. */
  function Weighted(x0: real, x1: real, x2: real, x3: real, c0: real, c1: real, c2: real, c3: real): real {
    x0 * c0 + x1 * c1 + x2 * c2 + x3 * c3
  }

  /** `matrix_apply`: the row vector `x` times `m`; component `i` weights
      column `i` of `m` by the components of `x`. The source copies the
      components of `x` first, so writing the result over `x` is safe; as a
      function on values this needs no separate statement. */
  function MatrixApply(x: Vector, m: Matrix): Vector {
    Vector(Weighted(x.x, x.y, x.z, x.w, m.r0.x, m.r1.x, m.r2.x, m.r3.x),
           Weighted(x.x, x.y, x.z, x.w, m.r0.y, m.r1.y, m.r2.y, m.r3.y),
           Weighted(x.x, x.y, x.z, x.w, m.r0.z, m.r1.z, m.r2.z, m.r3.z),
           Weighted(x.x, x.y, x.z, x.w, m.r0.w, m.r1.w, m.r2.w, m.r3.w))
  }

  /** The product `a * b`: row `j` of the product is row `j` of `a` times `b`. */
  function Product(a: Matrix, b: Matrix): Matrix {
    Matrix(MatrixApply(a.r0, b), MatrixApply(a.r1, b), MatrixApply(a.r2, b), MatrixApply(a.r3, b))
  }

  /** The scalar `x * f`, once `x` is known to be cell `(i, j)` of `a`, is
      cell `(i, j)` of `a * f`: the step `matrix_scale` takes per cell. */
  lemma ScaledEntry(a: Matrix, f: real, i: int, j: int, x: real)
    requires 0 <= i < 4 && 0 <= j < 4 && x == Cell(a, i, j)
    ensures x * f == Cell(Scaled(a, f), i, j)
  {
    ScaledCell(a, f, i, j);
    MulEq(x, Cell(a, i, j), f);
  }

  /** `matrix_scale` is entrywise. */
  lemma ScaledCell(a: Matrix, f: real, i: int, j: int)
    requires 0 <= i < 4 && 0 <= j < 4
    ensures Cell(Scaled(a, f), i, j) == Cell(a, i, j) * f
  {
    var v := RowOf(a, i);
    assert RowOf(Scaled(a, f), i) == VecScaled(v, f);
    CompScaled(v, f, j);
    assert Cell(Scaled(a, f), i, j) == Comp(VecScaled(v, f), j);
    assert Cell(a, i, j) == Comp(v, j);
  }

  lemma CompScaled(v: Vector, f: real, j: int)
    requires 0 <= j < 4
    ensures Comp(VecScaled(v, f), j) == Comp(v, j) * f
  {
    if j == 0 {
      assert Comp(VecScaled(v, f), j) == v.x * f;
    } else if j == 1 {
      assert Comp(VecScaled(v, f), j) == v.y * f;
    } else if j == 2 {
      assert Comp(VecScaled(v, f), j) == v.z * f;
    } else {
      assert Comp(VecScaled(v, f), j) == v.w * f;
    }
  }

  /** Equal factors give equal products. (The solver does not rewrite equal
      terms under a product by itself, so this step is spelled out.) */
  lemma MulEq(x: real, y: real, f: real)
    requires x == y
    ensures x * f == y * f
  {
  }

  /** Cell `(j, i)` of `a * b` is row `j` of `a` weighting column `i` of `b`. */
  lemma ProductCell(a: Matrix, b: Matrix, j: int, i: int)
    requires 0 <= j < 4 && 0 <= i < 4
    ensures Cell(Product(a, b), j, i)
         == Weighted(Cell(a, j, 0), Cell(a, j, 1), Cell(a, j, 2), Cell(a, j, 3),
                     Cell(b, 0, i), Cell(b, 1, i), Cell(b, 2, i), Cell(b, 3, i))
  {
    assert RowOf(Product(a, b), j) == MatrixApply(RowOf(a, j), b);
    ApplyColumn(RowOf(a, j), b, i);
    assert Weighted(Cell(a, j, 0), Cell(a, j, 1), Cell(a, j, 2), Cell(a, j, 3),
                    Cell(b, 0, i), Cell(b, 1, i), Cell(b, 2, i), Cell(b, 3, i))
        == Weighted(RowOf(a, j).x, RowOf(a, j).y, RowOf(a, j).z, RowOf(a, j).w,
                    Cell(b, 0, i), Cell(b, 1, i), Cell(b, 2, i), Cell(b, 3, i));
  }

  /** Component `i` of `v * b` is `v` weighting column `i` of `b`. */
  lemma ApplyColumn(v: Vector, b: Matrix, i: int)
    requires 0 <= i < 4
    ensures Comp(MatrixApply(v, b), i)
         == Weighted(v.x, v.y, v.z, v.w, Cell(b, 0, i), Cell(b, 1, i), Cell(b, 2, i), Cell(b, 3, i))
  {
    if i == 0 {
      assert Weighted(v.x, v.y, v.z, v.w, Cell(b, 0, i), Cell(b, 1, i), Cell(b, 2, i), Cell(b, 3, i))
          == Weighted(v.x, v.y, v.z, v.w, b.r0.x, b.r1.x, b.r2.x, b.r3.x);
    } else if i == 1 {
      assert Weighted(v.x, v.y, v.z, v.w, Cell(b, 0, i), Cell(b, 1, i), Cell(b, 2, i), Cell(b, 3, i))
          == Weighted(v.x, v.y, v.z, v.w, b.r0.y, b.r1.y, b.r2.y, b.r3.y);
    } else if i == 2 {
      assert Weighted(v.x, v.y, v.z, v.w, Cell(b, 0, i), Cell(b, 1, i), Cell(b, 2, i), Cell(b, 3, i))
          == Weighted(v.x, v.y, v.z, v.w, b.r0.z, b.r1.z, b.r2.z, b.r3.z);
    } else {
      assert Weighted(v.x, v.y, v.z, v.w, Cell(b, 0, i), Cell(b, 1, i), Cell(b, 2, i), Cell(b, 3, i))
          == Weighted(v.x, v.y, v.z, v.w, b.r0.w, b.r1.w, b.r2.w, b.r3.w);
    }
  }

  /** `matrix_set_identity`. */
  function Identity(): Matrix {
    Matrix(Vector(1.0, 0.0, 0.0, 0.0), Vector(0.0, 1.0, 0.0, 0.0),
           Vector(0.0, 0.0, 1.0, 0.0), Vector(0.0, 0.0, 0.0, 1.0))
  }

  /** `matrix_set_zero`. */
  function Zero(): Matrix {
    Matrix(Vector(0.0, 0.0, 0.0, 0.0), Vector(0.0, 0.0, 0.0, 0.0),
           Vector(0.0, 0.0, 0.0, 0.0), Vector(0.0, 0.0, 0.0, 0.0))
  }

  /** `matrix_set_translate`: the identity with the offsets in row 3. */
  function Translation(x: real, y: real, z: real): Matrix {
    Matrix(Vector(1.0, 0.0, 0.0, 0.0), Vector(0.0, 1.0, 0.0, 0.0),
           Vector(0.0, 0.0, 1.0, 0.0), Vector(x, y, z, 1.0))
  }

  /** `matrix_set_scale`: the identity with the factors on the diagonal. */
  function Scaling(x: real, y: real, z: real): Matrix {
    Matrix(Vector(x, 0.0, 0.0, 0.0), Vector(0.0, y, 0.0, 0.0),
           Vector(0.0, 0.0, z, 0.0), Vector(0.0, 0.0, 0.0, 1.0))
  }

  /** `matrix_set_perspective` (the Direct3D left-handed projection).
      `fax` is `1 / tan(fovy / 2)`, which the model takes as given. */
  function Perspective(fax: real, aspect: real, zn: real, zf: real): Matrix {
    Matrix(Vector(Div(fax, aspect), 0.0, 0.0, 0.0),
           Vector(0.0, fax, 0.0, 0.0),
           Vector(0.0, 0.0, Div(zf, zf - zn), 1.0),
           Vector(0.0, 0.0, Div(-zn * zf, zf - zn), 0.0))
  }

  // ------------------------------------------------------- algebraic laws

  /** Subtracting the matrix that was added gives back the first operand. */
  lemma DifferenceOfSum(a: Matrix, b: Matrix)
    ensures Difference(Sum(a, b), b) == a
  {
  }

  /** Applying the identity returns the vector unchanged. */
  lemma ApplyIdentity(x: Vector)
    ensures MatrixApply(x, Identity()) == x
  {
  }

  /** The identity is a two-sided unit of the product. */
  lemma ProductIdentity(a: Matrix)
    ensures Product(Identity(), a) == a
    ensures Product(a, Identity()) == a
  {
    ApplyIdentity(a.r0);
    ApplyIdentity(a.r1);
    ApplyIdentity(a.r2);
    ApplyIdentity(a.r3);
  }

  /** The zero matrix annihilates from both sides. */
  lemma ProductZero(a: Matrix)
    ensures Product(a, Zero()) == Zero()
    ensures Product(Zero(), a) == Zero()
  {
  }

  /** Applying a product is applying its factors in turn, which is what makes
      `world * view * projection` one matrix for the whole chain. */
  lemma ApplyProduct(x: Vector, a: Matrix, b: Matrix)
    ensures MatrixApply(x, Product(a, b)) == MatrixApply(MatrixApply(x, a), b)
  {
    ApplyProductColumnX(x, a, b);
    ApplyProductColumnY(x, a, b);
    ApplyProductColumnZ(x, a, b);
    ApplyProductColumnW(x, a, b);
  }

  /** Component x of ApplyProduct; the other three follow the same pattern. */
  lemma ApplyProductColumnX(x: Vector, a: Matrix, b: Matrix)
    ensures MatrixApply(x, Product(a, b)).x == MatrixApply(MatrixApply(x, a), b).x
  {
    ProductCells(a, b);
    ApplyComponents(x, a);
    Regroup(x.x, x.y, x.z, x.w,
      a.r0.x, a.r0.y, a.r0.z, a.r0.w,
      a.r1.x, a.r1.y, a.r1.z, a.r1.w,
      a.r2.x, a.r2.y, a.r2.z, a.r2.w,
      a.r3.x, a.r3.y, a.r3.z, a.r3.w,
      b.r0.x, b.r1.x, b.r2.x, b.r3.x, Product(a, b).r0.x, Product(a, b).r1.x, Product(a, b).r2.x, Product(a, b).r3.x,
      MatrixApply(x, a).x, MatrixApply(x, a).y, MatrixApply(x, a).z, MatrixApply(x, a).w);
  }

  lemma ApplyProductColumnY(x: Vector, a: Matrix, b: Matrix)
    ensures MatrixApply(x, Product(a, b)).y == MatrixApply(MatrixApply(x, a), b).y
  {
    ProductCells(a, b);
    ApplyComponents(x, a);
    Regroup(x.x, x.y, x.z, x.w,
      a.r0.x, a.r0.y, a.r0.z, a.r0.w,
      a.r1.x, a.r1.y, a.r1.z, a.r1.w,
      a.r2.x, a.r2.y, a.r2.z, a.r2.w,
      a.r3.x, a.r3.y, a.r3.z, a.r3.w,
      b.r0.y, b.r1.y, b.r2.y, b.r3.y, Product(a, b).r0.y, Product(a, b).r1.y, Product(a, b).r2.y, Product(a, b).r3.y,
      MatrixApply(x, a).x, MatrixApply(x, a).y, MatrixApply(x, a).z, MatrixApply(x, a).w);
  }

  lemma ApplyProductColumnZ(x: Vector, a: Matrix, b: Matrix)
    ensures MatrixApply(x, Product(a, b)).z == MatrixApply(MatrixApply(x, a), b).z
  {
    ProductCells(a, b);
    ApplyComponents(x, a);
    Regroup(x.x, x.y, x.z, x.w,
      a.r0.x, a.r0.y, a.r0.z, a.r0.w,
      a.r1.x, a.r1.y, a.r1.z, a.r1.w,
      a.r2.x, a.r2.y, a.r2.z, a.r2.w,
      a.r3.x, a.r3.y, a.r3.z, a.r3.w,
      b.r0.z, b.r1.z, b.r2.z, b.r3.z, Product(a, b).r0.z, Product(a, b).r1.z, Product(a, b).r2.z, Product(a, b).r3.z,
      MatrixApply(x, a).x, MatrixApply(x, a).y, MatrixApply(x, a).z, MatrixApply(x, a).w);
  }

  lemma ApplyProductColumnW(x: Vector, a: Matrix, b: Matrix)
    ensures MatrixApply(x, Product(a, b)).w == MatrixApply(MatrixApply(x, a), b).w
  {
    ProductCells(a, b);
    ApplyComponents(x, a);
    Regroup(x.x, x.y, x.z, x.w,
      a.r0.x, a.r0.y, a.r0.z, a.r0.w,
      a.r1.x, a.r1.y, a.r1.z, a.r1.w,
      a.r2.x, a.r2.y, a.r2.z, a.r2.w,
      a.r3.x, a.r3.y, a.r3.z, a.r3.w,
      b.r0.w, b.r1.w, b.r2.w, b.r3.w, Product(a, b).r0.w, Product(a, b).r1.w, Product(a, b).r2.w, Product(a, b).r3.w,
      MatrixApply(x, a).x, MatrixApply(x, a).y, MatrixApply(x, a).z, MatrixApply(x, a).w);
  }

  /** The components of `x * m` written out. */
  lemma ApplyComponents(x: Vector, m: Matrix)
    ensures MatrixApply(x, m).x == x.x * m.r0.x + x.y * m.r1.x + x.z * m.r2.x + x.w * m.r3.x
    ensures MatrixApply(x, m).y == x.x * m.r0.y + x.y * m.r1.y + x.z * m.r2.y + x.w * m.r3.y
    ensures MatrixApply(x, m).z == x.x * m.r0.z + x.y * m.r1.z + x.z * m.r2.z + x.w * m.r3.z
    ensures MatrixApply(x, m).w == x.x * m.r0.w + x.y * m.r1.w + x.z * m.r2.w + x.w * m.r3.w
  {
  }

  /** The sixteen cells of `a * b` written out. */
  lemma ProductCells(a: Matrix, b: Matrix)
    ensures Product(a, b).r0.x == a.r0.x * b.r0.x + a.r0.y * b.r1.x + a.r0.z * b.r2.x + a.r0.w * b.r3.x
    ensures Product(a, b).r0.y == a.r0.x * b.r0.y + a.r0.y * b.r1.y + a.r0.z * b.r2.y + a.r0.w * b.r3.y
    ensures Product(a, b).r0.z == a.r0.x * b.r0.z + a.r0.y * b.r1.z + a.r0.z * b.r2.z + a.r0.w * b.r3.z
    ensures Product(a, b).r0.w == a.r0.x * b.r0.w + a.r0.y * b.r1.w + a.r0.z * b.r2.w + a.r0.w * b.r3.w
    ensures Product(a, b).r1.x == a.r1.x * b.r0.x + a.r1.y * b.r1.x + a.r1.z * b.r2.x + a.r1.w * b.r3.x
    ensures Product(a, b).r1.y == a.r1.x * b.r0.y + a.r1.y * b.r1.y + a.r1.z * b.r2.y + a.r1.w * b.r3.y
    ensures Product(a, b).r1.z == a.r1.x * b.r0.z + a.r1.y * b.r1.z + a.r1.z * b.r2.z + a.r1.w * b.r3.z
    ensures Product(a, b).r1.w == a.r1.x * b.r0.w + a.r1.y * b.r1.w + a.r1.z * b.r2.w + a.r1.w * b.r3.w
    ensures Product(a, b).r2.x == a.r2.x * b.r0.x + a.r2.y * b.r1.x + a.r2.z * b.r2.x + a.r2.w * b.r3.x
    ensures Product(a, b).r2.y == a.r2.x * b.r0.y + a.r2.y * b.r1.y + a.r2.z * b.r2.y + a.r2.w * b.r3.y
    ensures Product(a, b).r2.z == a.r2.x * b.r0.z + a.r2.y * b.r1.z + a.r2.z * b.r2.z + a.r2.w * b.r3.z
    ensures Product(a, b).r2.w == a.r2.x * b.r0.w + a.r2.y * b.r1.w + a.r2.z * b.r2.w + a.r2.w * b.r3.w
    ensures Product(a, b).r3.x == a.r3.x * b.r0.x + a.r3.y * b.r1.x + a.r3.z * b.r2.x + a.r3.w * b.r3.x
    ensures Product(a, b).r3.y == a.r3.x * b.r0.y + a.r3.y * b.r1.y + a.r3.z * b.r2.y + a.r3.w * b.r3.y
    ensures Product(a, b).r3.z == a.r3.x * b.r0.z + a.r3.y * b.r1.z + a.r3.z * b.r2.z + a.r3.w * b.r3.z
    ensures Product(a, b).r3.w == a.r3.x * b.r0.w + a.r3.y * b.r1.w + a.r3.z * b.r2.w + a.r3.w * b.r3.w
  {
    ApplyComponents(a.r0, b);
    ApplyComponents(a.r1, b);
    ApplyComponents(a.r2, b);
    ApplyComponents(a.r3, b);
  }

  /** One column of ApplyProduct over plain numbers: with `p = a * b` (the
      column at hand) and `y = x * a`, weighting `p` by `x` equals weighting
      `b` by `y`. Both sides are the same sixteen products `x_k a_kl b_l`. */
  lemma Regroup(x0: real, x1: real, x2: real, x3: real,
                a00: real, a01: real, a02: real, a03: real, a10: real, a11: real, a12: real, a13: real,
                a20: real, a21: real, a22: real, a23: real, a30: real, a31: real, a32: real, a33: real,
                b0: real, b1: real, b2: real, b3: real,
                p0: real, p1: real, p2: real, p3: real, y0: real, y1: real, y2: real, y3: real)
    requires p0 == a00 * b0 + a01 * b1 + a02 * b2 + a03 * b3
    requires p1 == a10 * b0 + a11 * b1 + a12 * b2 + a13 * b3
    requires p2 == a20 * b0 + a21 * b1 + a22 * b2 + a23 * b3
    requires p3 == a30 * b0 + a31 * b1 + a32 * b2 + a33 * b3
    requires y0 == x0 * a00 + x1 * a10 + x2 * a20 + x3 * a30
    requires y1 == x0 * a01 + x1 * a11 + x2 * a21 + x3 * a31
    requires y2 == x0 * a02 + x1 * a12 + x2 * a22 + x3 * a32
    requires y3 == x0 * a03 + x1 * a13 + x2 * a23 + x3 * a33
    ensures x0 * p0 + x1 * p1 + x2 * p2 + x3 * p3 == y0 * b0 + y1 * b1 + y2 * b2 + y3 * b3
  {
    assert x0 * p0 + x1 * p1 + x2 * p2 + x3 * p3
        == x0 * a00 * b0 + x0 * a01 * b1 + x0 * a02 * b2 + x0 * a03 * b3
        + x1 * a10 * b0 + x1 * a11 * b1 + x1 * a12 * b2 + x1 * a13 * b3
        + x2 * a20 * b0 + x2 * a21 * b1 + x2 * a22 * b2 + x2 * a23 * b3
        + x3 * a30 * b0 + x3 * a31 * b1 + x3 * a32 * b2 + x3 * a33 * b3 by {
      RowGroup(x0, p0, a00, a01, a02, a03, b0, b1, b2, b3);
      RowGroup(x1, p1, a10, a11, a12, a13, b0, b1, b2, b3);
      RowGroup(x2, p2, a20, a21, a22, a23, b0, b1, b2, b3);
      RowGroup(x3, p3, a30, a31, a32, a33, b0, b1, b2, b3);
    }
    assert x0 * a00 * b0 + x1 * a10 * b0 + x2 * a20 * b0 + x3 * a30 * b0
        + x0 * a01 * b1 + x1 * a11 * b1 + x2 * a21 * b1 + x3 * a31 * b1
        + x0 * a02 * b2 + x1 * a12 * b2 + x2 * a22 * b2 + x3 * a32 * b2
        + x0 * a03 * b3 + x1 * a13 * b3 + x2 * a23 * b3 + x3 * a33 * b3
        == y0 * b0 + y1 * b1 + y2 * b2 + y3 * b3 by {
      ColGroup(b0, y0, x0, x1, x2, x3, a00, a10, a20, a30);
      ColGroup(b1, y1, x0, x1, x2, x3, a01, a11, a21, a31);
      ColGroup(b2, y2, x0, x1, x2, x3, a02, a12, a22, a32);
      ColGroup(b3, y3, x0, x1, x2, x3, a03, a13, a23, a33);
    }
  }

  /** `x * (a0 b0 + ... + a3 b3)` multiplied out. */
  lemma RowGroup(x: real, p: real, a0: real, a1: real, a2: real, a3: real, b0: real, b1: real, b2: real, b3: real)
    requires p == a0 * b0 + a1 * b1 + a2 * b2 + a3 * b3
    ensures x * p == x * a0 * b0 + x * a1 * b1 + x * a2 * b2 + x * a3 * b3
  {
  }

  /** `(x0 a0 + ... + x3 a3) * b` multiplied out. */
  lemma ColGroup(b: real, y: real, x0: real, x1: real, x2: real, x3: real, a0: real, a1: real, a2: real, a3: real)
    requires y == x0 * a0 + x1 * a1 + x2 * a2 + x3 * a3
    ensures y * b == x0 * a0 * b + x1 * a1 * b + x2 * a2 * b + x3 * a3 * b
  {
  }

  /** `x` times a matrix given cell by cell. */
  lemma ApplyOf(x: Vector, m00: real, m01: real, m02: real, m03: real, m10: real, m11: real, m12: real, m13: real,
                m20: real, m21: real, m22: real, m23: real, m30: real, m31: real, m32: real, m33: real)
    ensures MatrixApply(x, Matrix(Vector(m00, m01, m02, m03), Vector(m10, m11, m12, m13),
                                  Vector(m20, m21, m22, m23), Vector(m30, m31, m32, m33)))
         == Vector(Weighted(x.x, x.y, x.z, x.w, m00, m10, m20, m30), Weighted(x.x, x.y, x.z, x.w, m01, m11, m21, m31),
                   Weighted(x.x, x.y, x.z, x.w, m02, m12, m22, m32), Weighted(x.x, x.y, x.z, x.w, m03, m13, m23, m33))
  {
  }

  /** A translation moves a point (w = 1) by the offsets and leaves a
      direction (w = 0) alone; in general it adds `w` times the offsets. */
  lemma ApplyTranslation(p: Vector, x: real, y: real, z: real)
    ensures MatrixApply(p, Translation(x, y, z)) == Vector(p.x + p.w * x, p.y + p.w * y, p.z + p.w * z, p.w)
    ensures p.w == 1.0 ==> MatrixApply(p, Translation(x, y, z)) == Vector(p.x + x, p.y + y, p.z + z, 1.0)
    ensures p.w == 0.0 ==> MatrixApply(p, Translation(x, y, z)) == p
  {
    ApplyOf(p, 1.0, 0.0, 0.0, 0.0, 0.0, 1.0, 0.0, 0.0, 0.0, 0.0, 1.0, 0.0, x, y, z, 1.0);
  }

  /** A scaling multiplies x, y, z componentwise and keeps `w`. */
  lemma ApplyScaling(p: Vector, x: real, y: real, z: real)
    ensures MatrixApply(p, Scaling(x, y, z)) == Vector(p.x * x, p.y * y, p.z * z, p.w)
  {
    ApplyOf(p, x, 0.0, 0.0, 0.0, 0.0, y, 0.0, 0.0, 0.0, 0.0, z, 0.0, 0.0, 0.0, 0.0, 1.0);
  }

  /** Under the projection, clip `w` is the input depth, x and y are scaled
      by the focal factors, and a point (w = 1) on the near plane gets clip
      z = 0 while one on the far plane gets clip z = zf = clip w. */
  lemma ApplyPerspective(p: Vector, fax: real, aspect: real, zn: real, zf: real)
    requires zf != zn
    ensures MatrixApply(p, Perspective(fax, aspect, zn, zf)).w == p.z
    ensures MatrixApply(p, Perspective(fax, aspect, zn, zf)).x == p.x * Div(fax, aspect)
    ensures MatrixApply(p, Perspective(fax, aspect, zn, zf)).y == p.y * fax
    ensures p.w == 1.0 && p.z == zn ==> MatrixApply(p, Perspective(fax, aspect, zn, zf)).z == 0.0
    ensures p.w == 1.0 && p.z == zf ==> MatrixApply(p, Perspective(fax, aspect, zn, zf)).z == zf
  {
    ApplyOf(p, Div(fax, aspect), 0.0, 0.0, 0.0, 0.0, fax, 0.0, 0.0,
            0.0, 0.0, Div(zf, zf - zn), 1.0, 0.0, 0.0, Div(-zn * zf, zf - zn), 0.0);
    if p.w == 1.0 && p.z == zn {
      PlaneDepth(p, fax, aspect, zn, zf);
    }
    if p.w == 1.0 && p.z == zf {
      PlaneDepth(p, fax, aspect, zn, zf);
    }
  }

  /** Clip z of a point (w = 1) at either clipping plane. */
  lemma PlaneDepth(p: Vector, fax: real, aspect: real, zn: real, zf: real)
    requires zf != zn && p.w == 1.0 && (p.z == zn || p.z == zf)
    ensures p.z == zn ==> MatrixApply(p, Perspective(fax, aspect, zn, zf)).z == 0.0
    ensures p.z == zf ==> MatrixApply(p, Perspective(fax, aspect, zn, zf)).z == zf
  {
    var q1, q2 := Div(zf, zf - zn), Div(-zn * zf, zf - zn);
    ApplyOf(p, Div(fax, aspect), 0.0, 0.0, 0.0, 0.0, fax, 0.0, 0.0, 0.0, 0.0, q1, 1.0, 0.0, 0.0, q2, 0.0);
    DepthPlanes(zn, zf);
    if p.z == zn {
      assert Weighted(p.x, p.y, p.z, p.w, 0.0, 0.0, q1, q2) == Weighted(p.x, p.y, zn, 1.0, 0.0, 0.0, q1, q2);
    } else {
      assert Weighted(p.x, p.y, p.z, p.w, 0.0, 0.0, q1, q2) == Weighted(p.x, p.y, zf, 1.0, 0.0, 0.0, q1, q2);
    }
  }

  /** The depth row of the projection sends `zn` to 0 and `zf` to `zf`. */
  lemma DepthPlanes(zn: real, zf: real)
    requires zf != zn
    ensures zn * Div(zf, zf - zn) + Div(-zn * zf, zf - zn) == 0.0
    ensures zf * Div(zf, zf - zn) + Div(-zn * zf, zf - zn) == zf
  {
    var d := zf - zn;
    var q1, q2 := Div(zf, d), Div(-zn * zf, d);
    assert (zn * q1 + q2) * d == zn * (q1 * d) + q2 * d;
    assert (zf * q1 + q2) * d == zf * (q1 * d) + q2 * d;
  }

  // ------------------------------------- the source's routines over arrays

  predicate Is4x4(m: array2<real>) {
    m.Length0 == 4 && m.Length1 == 4
  }

  /** The matrix a 4x4 array currently holds. */
  function Contents(m: array2<real>): Matrix
    reads m
    requires Is4x4(m)
  {
    Matrix(Vector(m[0, 0], m[0, 1], m[0, 2], m[0, 3]), Vector(m[1, 0], m[1, 1], m[1, 2], m[1, 3]),
           Vector(m[2, 0], m[2, 1], m[2, 2], m[2, 3]), Vector(m[3, 0], m[3, 1], m[3, 2], m[3, 3]))
  }

  /** The cells of an array are those of the matrix it holds, and an array
      whose cells are those of `M` holds `M`. */
  lemma CellsOf(m: array2<real>)
    requires Is4x4(m)
    ensures forall i, j :: 0 <= i < 4 && 0 <= j < 4 ==> m[i, j] == Cell(Contents(m), i, j)
  {
  }

  lemma ContentsIs(m: array2<real>, M: Matrix)
    requires Is4x4(m)
    requires forall i, j :: 0 <= i < 4 && 0 <= j < 4 ==> m[i, j] == Cell(M, i, j)
    ensures Contents(m) == M
  {
    assert m[0, 0] == Cell(M, 0, 0) && m[0, 1] == Cell(M, 0, 1) && m[0, 2] == Cell(M, 0, 2) && m[0, 3] == Cell(M, 0, 3);
    assert m[1, 0] == Cell(M, 1, 0) && m[1, 1] == Cell(M, 1, 1) && m[1, 2] == Cell(M, 1, 2) && m[1, 3] == Cell(M, 1, 3);
    assert m[2, 0] == Cell(M, 2, 0) && m[2, 1] == Cell(M, 2, 1) && m[2, 2] == Cell(M, 2, 2) && m[2, 3] == Cell(M, 2, 3);
    assert m[3, 0] == Cell(M, 3, 0) && m[3, 1] == Cell(M, 3, 1) && m[3, 2] == Cell(M, 3, 2) && m[3, 3] == Cell(M, 3, 3);
  }

  /** `matrix_add`. `c` may be `a` or `b`: each cell is read before it is written. */
  method MatrixAdd(c: array2<real>, a: array2<real>, b: array2<real>)
    requires Is4x4(c) && Is4x4(a) && Is4x4(b)
    modifies c
    ensures Contents(c) == Sum(old(Contents(a)), old(Contents(b)))
  {
    for i := 0 to 4
      invariant forall r, k :: 0 <= r < i && 0 <= k < 4 ==> c[r, k] == old(a[r, k]) + old(b[r, k])
      invariant forall r, k :: i <= r < 4 && 0 <= k < 4 ==> a[r, k] == old(a[r, k]) && b[r, k] == old(b[r, k])
    {
      for j := 0 to 4
        invariant forall r, k :: 0 <= r < i && 0 <= k < 4 ==> c[r, k] == old(a[r, k]) + old(b[r, k])
        invariant forall k :: 0 <= k < j ==> c[i, k] == old(a[i, k]) + old(b[i, k])
        invariant forall k :: j <= k < 4 ==> a[i, k] == old(a[i, k]) && b[i, k] == old(b[i, k])
        invariant forall r, k :: i < r < 4 && 0 <= k < 4 ==> a[r, k] == old(a[r, k]) && b[r, k] == old(b[r, k])
      {
        c[i, j] := a[i, j] + b[i, j];
      }
    }
  }

  /** `matrix_sub`. `c` may be `a` or `b`: each cell is read before it is written. */
  method MatrixSub(c: array2<real>, a: array2<real>, b: array2<real>)
    requires Is4x4(c) && Is4x4(a) && Is4x4(b)
    modifies c
    ensures Contents(c) == Difference(old(Contents(a)), old(Contents(b)))
  {
    for i := 0 to 4
      invariant forall r, k :: 0 <= r < i && 0 <= k < 4 ==> c[r, k] == old(a[r, k]) - old(b[r, k])
      invariant forall r, k :: i <= r < 4 && 0 <= k < 4 ==> a[r, k] == old(a[r, k]) && b[r, k] == old(b[r, k])
    {
      for j := 0 to 4
        invariant forall r, k :: 0 <= r < i && 0 <= k < 4 ==> c[r, k] == old(a[r, k]) - old(b[r, k])
        invariant forall k :: 0 <= k < j ==> c[i, k] == old(a[i, k]) - old(b[i, k])
        invariant forall k :: j <= k < 4 ==> a[i, k] == old(a[i, k]) && b[i, k] == old(b[i, k])
        invariant forall r, k :: i < r < 4 && 0 <= k < 4 ==> a[r, k] == old(a[r, k]) && b[r, k] == old(b[r, k])
      {
        c[i, j] := a[i, j] - b[i, j];
      }
    }
  }

  /** `matrix_scale`. `c` may be `a`. */
  method MatrixScale(c: array2<real>, a: array2<real>, f: real)
    requires Is4x4(c) && Is4x4(a)
    modifies c
    ensures Contents(c) == Scaled(old(Contents(a)), f)
  {
    ghost var A := Contents(a);
    ghost var S := Scaled(A, f);
    CellsOf(a);
    for i := 0 to 4
      invariant forall r, k :: 0 <= r < i && 0 <= k < 4 ==> c[r, k] == Cell(S, r, k)
      invariant forall r, k :: i <= r < 4 && 0 <= k < 4 ==> a[r, k] == Cell(A, r, k)
    {
      for j := 0 to 4
        invariant forall r, k :: 0 <= r < i && 0 <= k < 4 ==> c[r, k] == Cell(S, r, k)
        invariant forall k :: 0 <= k < j ==> c[i, k] == Cell(S, i, k)
        invariant forall k :: j <= k < 4 ==> a[i, k] == Cell(A, i, k)
        invariant forall r, k :: i < r < 4 && 0 <= k < 4 ==> a[r, k] == Cell(A, r, k)
      {
        var x := a[i, j];
        ScaledEntry(A, f, i, j, x);
        c[i, j] := x * f;
      }
    }
    ContentsIs(c, S);
  }

  /** `matrix_mul`: the product is built in a temporary and copied out at the
      end, so it is right even when `c` is `a` or `b` (a cell of the product
      reads a whole row of `a` and a whole column of `b`). */
  method MatrixMul(c: array2<real>, a: array2<real>, b: array2<real>)
    requires Is4x4(c) && Is4x4(a) && Is4x4(b)
    modifies c
    ensures Contents(c) == Product(old(Contents(a)), old(Contents(b)))
  {
    ghost var A, B := Contents(a), Contents(b);
    ghost var P := Product(A, B);
    CellsOf(a);
    CellsOf(b);
    var z := new real[4, 4];
    for i := 0 to 4
      modifies z
      invariant forall r, k :: 0 <= r < 4 && 0 <= k < i ==> z[r, k] == Cell(P, r, k)
    {
      for j := 0 to 4
        modifies z
        invariant forall r, k :: 0 <= r < 4 && 0 <= k < i ==> z[r, k] == Cell(P, r, k)
        invariant forall r :: 0 <= r < j ==> z[r, i] == Cell(P, r, i)
      {
        ProductCell(A, B, j, i);
        assert Weighted(a[j, 0], a[j, 1], a[j, 2], a[j, 3], b[0, i], b[1, i], b[2, i], b[3, i]) == Cell(P, j, i);
        z[j, i] := a[j, 0] * b[0, i] + a[j, 1] * b[1, i] + a[j, 2] * b[2, i] + a[j, 3] * b[3, i];
      }
    }
    ContentsIs(z, P);
    Copy(c, z);
  }

  /** The structure assignment `c[0] = z`. */
  method Copy(c: array2<real>, z: array2<real>)
    requires Is4x4(c) && Is4x4(z) && c != z
    modifies c
    ensures Contents(c) == old(Contents(z))
  {
    for i := 0 to 4
      invariant forall r, k :: 0 <= r < i && 0 <= k < 4 ==> c[r, k] == z[r, k]
    {
      for j := 0 to 4
        invariant forall r, k :: 0 <= r < i && 0 <= k < 4 ==> c[r, k] == z[r, k]
        invariant forall k :: 0 <= k < j ==> c[i, k] == z[i, k]
      {
        c[i, j] := z[i, j];
      }
    }
    CellsOf(z);
    ContentsIs(c, Contents(z));
  }

  /** `matrix_set_identity`: every cell is written once, 1 on the diagonal
      and 0 elsewhere; no cell is read, so the sixteen stores are one
      simultaneous assignment here. */
  method SetIdentity(m: array2<real>)
    requires Is4x4(m)
    modifies m
    ensures Contents(m) == Identity()
  {
    forall i, j | 0 <= i < 4 && 0 <= j < 4 {
      m[i, j] := if i == j then 1.0 else 0.0;
    }
  }

  /** `matrix_set_zero`: every cell is written with 0. */
  method SetZero(m: array2<real>)
    requires Is4x4(m)
    modifies m
    ensures Contents(m) == Zero()
  {
    forall i, j | 0 <= i < 4 && 0 <= j < 4 {
      m[i, j] := 0.0;
    }
  }

  /** `matrix_set_translate`. */
  method SetTranslate(m: array2<real>, x: real, y: real, z: real)
    requires Is4x4(m)
    modifies m
    ensures Contents(m) == Translation(x, y, z)
  {
    SetIdentity(m);
    m[3, 0] := x;
    m[3, 1] := y;
    m[3, 2] := z;
  }

  /** `matrix_set_scale`. */
  method SetScale(m: array2<real>, x: real, y: real, z: real)
    requires Is4x4(m)
    modifies m
    ensures Contents(m) == Scaling(x, y, z)
  {
    SetIdentity(m);
    m[0, 0] := x;
    m[1, 1] := y;
    m[2, 2] := z;
  }

  /** `matrix_set_perspective`, with `fax = 1 / tan(fovy / 2)` given. */
  method SetPerspective(m: array2<real>, fax: real, aspect: real, zn: real, zf: real)
    requires Is4x4(m)
    modifies m
    ensures Contents(m) == Perspective(fax, aspect, zn, zf)
  {
    SetZero(m);
    m[0, 0] := Div(fax, aspect);
    m[1, 1] := fax;
    m[2, 2] := Div(zf, zf - zn);
    m[3, 2] := Div(-zn * zf, zf - zn);
    m[2, 3] := 1.0;
  }
}
