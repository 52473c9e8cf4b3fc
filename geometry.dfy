/** The geometry stage: the world-view-projection transform, the clip test
    against the canonical view volume, the perspective divide onto the
    screen, the per-vertex arithmetic used for perspective-correct
    interpolation, and the decomposition of a triangle into trapezoids
    that are then walked scanline by scanline. */
module Geometry {
  import opened Scalar
  import opened LinAlg

  // ------------------------------------------------------------ transform

  /** `transform_t`: the three stage matrices, their product, and the screen
      size. The four matrices are separate 4x4 arrays that the routines
      below fill in place. */
  class Transform {
    const world: array2<real>
    const view: array2<real>
    const projection: array2<real>
    const transform: array2<real>
    var w: real
    var h: real

    predicate Valid()
      reads this
    {
      Is4x4(world) && Is4x4(view) && Is4x4(projection) && Is4x4(transform) &&
      transform != world && transform != view && transform != projection
    }

    /** `transform_init`: identity world and view, the perspective
        projection for a quarter turn of vertical field of view (whose
        `1 / tan(fovy / 2)` is `fax`), near plane 1, far plane 500, aspect
        `width / height`, and the product brought up to date. */
    constructor (width: int, height: int, fax: real)
      ensures Valid()
      ensures fresh(world) && fresh(view) && fresh(projection) && fresh(transform)
      ensures Contents(world) == Identity() && Contents(view) == Identity()
      ensures Contents(projection) == Perspective(fax, Div(width as real, height as real), 1.0, 500.0)
      ensures Contents(transform) == Product(Product(Contents(world), Contents(view)), Contents(projection))
      ensures w == width as real && h == height as real
    {
      world := new real[4, 4];
      view := new real[4, 4];
      projection := new real[4, 4];
      transform := new real[4, 4];
      w := width as real;
      h := height as real;
      new;
      var aspect := Div(width as real, height as real);
      SetIdentity(world);
      SetIdentity(view);
      SetPerspective(projection, fax, aspect, 1.0, 500.0);
      Update();
    }

    /** `transform_update`: `transform = world * view * projection`, through
        a temporary for `world * view`. Only `transform` changes. */
    method Update()
      requires Valid()
      modifies transform
      ensures Contents(transform) == Product(Product(Contents(world), Contents(view)), Contents(projection))
    {
      var m := new real[4, 4];
      MatrixMul(m, world, view);
      MatrixMul(transform, m, projection);
    }

    /** `transform_apply`: the clip-space image of `x`. */
    function Apply(x: Vector): Vector
      reads this, transform
      requires Valid()
    {
      MatrixApply(x, Contents(transform))
    }

    /** Once `transform_update` has run, `transform_apply` takes a point
        through world, view and projection in turn. */
    lemma ApplyInTurn(x: Vector)
      requires Valid()
      requires Contents(transform) == Product(Product(Contents(world), Contents(view)), Contents(projection))
      ensures Apply(x) == MatrixApply(MatrixApply(MatrixApply(x, Contents(world)), Contents(view)), Contents(projection))
    {
      ApplyComposes(x, Contents(world), Contents(view), Contents(projection));
    }
  }

  /** Applying the composed matrix is applying world, view and projection
      one after the other. */
  lemma ApplyComposes(x: Vector, world: Matrix, view: Matrix, projection: Matrix)
    ensures MatrixApply(x, Product(Product(world, view), projection))
         == MatrixApply(MatrixApply(MatrixApply(x, world), view), projection)
  {
    ApplyProduct(x, Product(world, view), projection);
    ApplyProduct(x, world, view);
  }

  // ------------------------------------------------ clipping and screen map

  /** `transform_check_cvv`: one bit per violated bound of the view volume
      `0 <= z <= w`, `-w <= x <= w`, `-w <= y <= w`. */
  function CheckCvv(v: Vector): (check: bv32)
    ensures check == 0 <==> (0.0 <= v.z <= v.w && -v.w <= v.x <= v.w && -v.w <= v.y <= v.w)
    ensures (check & 1 != 0) <==> v.z < 0.0
    ensures (check & 2 != 0) <==> v.z > v.w
    ensures (check & 4 != 0) <==> v.x < -v.w
    ensures (check & 8 != 0) <==> v.x > v.w
    ensures (check & 16 != 0) <==> v.y < -v.w
    ensures (check & 32 != 0) <==> v.y > v.w
    ensures check < 64
  {
    var w := v.w;
    (if v.z < 0.0 then 1 else 0) | (if v.z > w then 2 else 0) |
    (if v.x < -w then 4 else 0) | (if v.x > w then 8 else 0) |
    (if v.y < -w then 16 else 0) | (if v.y > w then 32 else 0)
  }

  /** A point passing the test lies in front of the eye, unless it is the
      clip-space origin, the one point with `w == 0` that passes. */
  lemma CvvFrontOrOrigin(v: Vector)
    requires CheckCvv(v) == 0
    ensures v.w > 0.0 || v == Vector(0.0, 0.0, 0.0, 0.0)
  {
  }

  /** `transform_homogenize`: divide by `w`, then map x from [-1, 1] onto
      [0, width] and y from [1, -1] onto [0, height] (the screen's y axis
      points down). Depth becomes `z / w`; `w` becomes 1. */
  function Homogenize(width: real, height: real, x: Vector): (y: Vector)
    ensures y.w == 1.0
    ensures x.w != 0.0 ==> y.z * x.w == x.z
    ensures x.w != 0.0 && x.x == -x.w ==> y.x == 0.0
    ensures x.w != 0.0 && x.x == x.w ==> y.x == width
    ensures x.w != 0.0 && x.y == x.w ==> y.y == 0.0
    ensures x.w != 0.0 && x.y == -x.w ==> y.y == height
  {
    var rhw := Recip(x.w);
    Unscale(x.z, x.w);
    UnitRatio(x.x, x.w);
    UnitRatio(x.y, x.w);
    Vector((x.x * rhw + 1.0) * width * 0.5, (1.0 - x.y * rhw) * height * 0.5, x.z * rhw, 1.0)
  }

  /** Dividing by `w` and multiplying back gives the original. */
  lemma Unscale(a: real, w: real)
    ensures w != 0.0 ==> (a * Recip(w)) * w == a
  {
    if w != 0.0 {
      assert (a * Recip(w)) * w == a * (Recip(w) * w);
    }
  }

  /** Dividing by `w` sends `w` to 1 and `-w` to -1. */
  lemma UnitRatio(a: real, w: real)
    ensures w != 0.0 && a == w ==> a * Recip(w) == 1.0
    ensures w != 0.0 && a == -w ==> a * Recip(w) == -1.0
  {
    if w != 0.0 && a == -w {
      assert a * Recip(w) == -(w * Recip(w));
    }
  }

  /** A point inside the view volume, in front of the eye, lands on the
      screen rectangle with depth in [0, 1]. */
  lemma HomogenizeOnScreen(width: real, height: real, x: Vector)
    requires CheckCvv(x) == 0 && x.w > 0.0
    requires width >= 0.0 && height >= 0.0
    ensures 0.0 <= Homogenize(width, height, x).x <= width
    ensures 0.0 <= Homogenize(width, height, x).y <= height
    ensures 0.0 <= Homogenize(width, height, x).z <= 1.0
  {
    var rhw := Recip(x.w);
    Normalized(x.x, x.w, rhw);
    Normalized(x.y, x.w, rhw);
    Normalized(x.z, x.w, rhw);
    ViewportMap(x.x * rhw, width);
    ViewportFlip(x.y * rhw, height);
    Depth(x.z, rhw);
  }

  /** A coordinate within [-w, w] divided by a positive `w` is within [-1, 1]. */
  lemma Normalized(a: real, w: real, rhw: real)
    requires -w <= a <= w && w > 0.0 && rhw * w == 1.0
    ensures -1.0 <= a * rhw <= 1.0 && rhw > 0.0
  {
    assert rhw > 0.0;
    assert a * rhw <= w * rhw;
    assert -(w * rhw) <= a * rhw;
  }

  lemma ViewportMap(s: real, size: real)
    requires -1.0 <= s <= 1.0 && size >= 0.0
    ensures 0.0 <= (s + 1.0) * size * 0.5 <= size
  {
    MulBetween(size, (s + 1.0) * 0.5);
    assert (s + 1.0) * size * 0.5 == size * ((s + 1.0) * 0.5);
  }

  lemma ViewportFlip(s: real, size: real)
    requires -1.0 <= s <= 1.0 && size >= 0.0
    ensures 0.0 <= (1.0 - s) * size * 0.5 <= size
  {
    MulBetween(size, (1.0 - s) * 0.5);
    assert (1.0 - s) * size * 0.5 == size * ((1.0 - s) * 0.5);
  }

  lemma Depth(z: real, rhw: real)
    requires 0.0 <= z && 0.0 < rhw && z * rhw <= 1.0
    ensures 0.0 <= z * rhw <= 1.0
  {
  }

  // ---------------------------------------------------------------- vertices

  datatype TexCoord = TexCoord(u: real, v: real)
  datatype Color = Color(r: real, g: real, b: real)

  /** `vertex_t`: position, texture coordinate, colour, and `rhw`, the
      reciprocal of the clip-space `w` once `RhwInit` has run. */
  datatype Vertex = Vertex(pos: Point, tc: TexCoord, color: Color, rhw: real)

  /** `vertex_rhw_init`: `rhw = 1 / pos.w`, and the attributes are divided
      by `pos.w` so that they interpolate linearly in screen space. */
  function RhwInit(v: Vertex): (r: Vertex)
    ensures r.pos == v.pos
    ensures v.pos.w != 0.0 ==> r.rhw * v.pos.w == 1.0
    ensures v.pos.w != 0.0 ==> r.tc.u * v.pos.w == v.tc.u && r.tc.v * v.pos.w == v.tc.v
    ensures v.pos.w != 0.0 ==>
      r.color.r * v.pos.w == v.color.r && r.color.g * v.pos.w == v.color.g && r.color.b * v.pos.w == v.color.b
  {
    var rhw := Recip(v.pos.w);
    Unscale(v.tc.u, v.pos.w);
    Unscale(v.tc.v, v.pos.w);
    Unscale(v.color.r, v.pos.w);
    Unscale(v.color.g, v.pos.w);
    Unscale(v.color.b, v.pos.w);
    Vertex(v.pos, TexCoord(v.tc.u * rhw, v.tc.v * rhw),
           Color(v.color.r * rhw, v.color.g * rhw, v.color.b * rhw), rhw)
  }

  /** Undoing `RhwInit`: `1 / rhw` is the clip-space `w` again, and the
      attributes times `1 / rhw` are the original ones. This is the
      perspective correction the scanline applies to every pixel. */
  lemma RhwInitRecovers(v: Vertex)
    requires v.pos.w != 0.0
    ensures Recip(RhwInit(v).rhw) == v.pos.w
    ensures RhwInit(v).tc.u * Recip(RhwInit(v).rhw) == v.tc.u
    ensures RhwInit(v).tc.v * Recip(RhwInit(v).rhw) == v.tc.v
    ensures RhwInit(v).color.r * Recip(RhwInit(v).rhw) == v.color.r
    ensures RhwInit(v).color.g * Recip(RhwInit(v).rhw) == v.color.g
    ensures RhwInit(v).color.b * Recip(RhwInit(v).rhw) == v.color.b
  {
    var r := RhwInit(v);
    var w := v.pos.w;
    assert r.rhw * w == 1.0;
    ReciprocalOfReciprocal(r.rhw, w);
  }

  lemma ReciprocalOfReciprocal(a: real, w: real)
    requires a * w == 1.0
    ensures Recip(a) == w
  {
    assert a != 0.0;
    calc {
      Recip(a);
      Recip(a) * (a * w);
      (Recip(a) * a) * w;
      w;
    }
  }

  /** `vertex_interp`: every attribute interpolated by `t`; the position goes
      through `vector_interp`, which forces its `w` to 1. */
  function VertexInterp(x1: Vertex, x2: Vertex, t: real): (y: Vertex)
    ensures y.pos.w == 1.0
    ensures t == 0.0 ==> y == x1.(pos := x1.pos.(w := 1.0))
    ensures t == 1.0 ==> y == x2.(pos := x2.pos.(w := 1.0))
  {
    Vertex(VectorInterp(x1.pos, x2.pos, t),
           TexCoord(Interp(x1.tc.u, x2.tc.u, t), Interp(x1.tc.v, x2.tc.v, t)),
           Color(Interp(x1.color.r, x2.color.r, t), Interp(x1.color.g, x2.color.g, t),
                 Interp(x1.color.b, x2.color.b, t)),
           Interp(x1.rhw, x2.rhw, t))
  }

  /** One coordinate of `vertex_division`: the difference times `inv`. */
  function Slope(a: real, b: real, inv: real): real {
    (b - a) * inv
  }

  /** `vertex_division`: the per-step increment that takes `x1` to `x2` in
      `w` equal steps; every field, `pos.w` included. */
  function VertexDivision(x1: Vertex, x2: Vertex, w: real): Vertex {
    var inv := Recip(w);
    Vertex(Vector(Slope(x1.pos.x, x2.pos.x, inv), Slope(x1.pos.y, x2.pos.y, inv),
                  Slope(x1.pos.z, x2.pos.z, inv), Slope(x1.pos.w, x2.pos.w, inv)),
           TexCoord(Slope(x1.tc.u, x2.tc.u, inv), Slope(x1.tc.v, x2.tc.v, inv)),
           Color(Slope(x1.color.r, x2.color.r, inv), Slope(x1.color.g, x2.color.g, inv),
                 Slope(x1.color.b, x2.color.b, inv)),
           Slope(x1.rhw, x2.rhw, inv))
  }

  /** `vertex_add`: the new value of `y` after `y += x`, field by field. */
  function VertexAdd(y: Vertex, x: Vertex): Vertex {
    Vertex(Vector(y.pos.x + x.pos.x, y.pos.y + x.pos.y, y.pos.z + x.pos.z, y.pos.w + x.pos.w),
           TexCoord(y.tc.u + x.tc.u, y.tc.v + x.tc.v),
           Color(y.color.r + x.color.r, y.color.g + x.color.g, y.color.b + x.color.b),
           y.rhw + x.rhw)
  }

  /** `v` after `n` successive `vertex_add(v, step)`. */
  function Advance(v: Vertex, step: Vertex, n: nat): Vertex {
    if n == 0 then v else VertexAdd(Advance(v, step, n - 1), step)
  }

  /** One coordinate advanced `k` steps of `d` from `a`. */
  function Affine(a: real, d: real, k: real): real {
    a + k * d
  }

  /** Every field of `v` advanced `k` steps of `step`. */
  function AffineVertex(v: Vertex, step: Vertex, k: real): Vertex {
    Vertex(Vector(Affine(v.pos.x, step.pos.x, k), Affine(v.pos.y, step.pos.y, k),
                  Affine(v.pos.z, step.pos.z, k), Affine(v.pos.w, step.pos.w, k)),
           TexCoord(Affine(v.tc.u, step.tc.u, k), Affine(v.tc.v, step.tc.v, k)),
           Color(Affine(v.color.r, step.color.r, k), Affine(v.color.g, step.color.g, k),
                 Affine(v.color.b, step.color.b, k)),
           Affine(v.rhw, step.rhw, k))
  }

  /** `n` additions of `step` advance every field by `n * step`. */
  lemma {:induction false} AdvanceIsAffine(v: Vertex, step: Vertex, n: nat)
    ensures Advance(v, step, n) == AffineVertex(v, step, n as real)
  {
    if n == 0 {
      assert AffineVertex(v, step, 0.0) == v;
    } else {
      AdvanceIsAffine(v, step, n - 1);
      var k := n as real;
      AffineStep(v.pos.x, step.pos.x, k);
      AffineStep(v.pos.y, step.pos.y, k);
      AffineStep(v.pos.z, step.pos.z, k);
      AffineStep(v.pos.w, step.pos.w, k);
      AffineStep(v.tc.u, step.tc.u, k);
      AffineStep(v.tc.v, step.tc.v, k);
      AffineStep(v.color.r, step.color.r, k);
      AffineStep(v.color.g, step.color.g, k);
      AffineStep(v.color.b, step.color.b, k);
      AffineStep(v.rhw, step.rhw, k);
      assert (n - 1) as real == k - 1.0;
    }
  }

  lemma AffineStep(a: real, d: real, k: real)
    ensures Affine(a, d, k - 1.0) + d == Affine(a, d, k)
  {
  }

  /** `n` steps of `(b - a) / n` lead from `a` to `b`. */
  lemma AffineReaches(a: real, b: real, k: real)
    requires k != 0.0
    ensures Affine(a, Slope(a, b, Recip(k)), k) == b
  {
    var inv := Recip(k);
    assert k * ((b - a) * inv) == (b - a) * (inv * k);
  }

  /** The scanline round trip: adding the step of `vertex_division(x1, x2, n)`
      to `x1` `n` times, as the scanline loop does, arrives exactly at `x2`. */
  lemma DivisionAddRoundTrip(x1: Vertex, x2: Vertex, n: nat)
    requires n > 0
    ensures Advance(x1, VertexDivision(x1, x2, n as real), n) == x2
  {
    var k := n as real;
    AdvanceIsAffine(x1, VertexDivision(x1, x2, k), n);
    AffineReaches(x1.pos.x, x2.pos.x, k);
    AffineReaches(x1.pos.y, x2.pos.y, k);
    AffineReaches(x1.pos.z, x2.pos.z, k);
    AffineReaches(x1.pos.w, x2.pos.w, k);
    AffineReaches(x1.tc.u, x2.tc.u, k);
    AffineReaches(x1.tc.v, x2.tc.v, k);
    AffineReaches(x1.color.r, x2.color.r, k);
    AffineReaches(x1.color.g, x2.color.g, k);
    AffineReaches(x1.color.b, x2.color.b, k);
    AffineReaches(x1.rhw, x2.rhw, k);
  }

  // ------------------------------------------------------------- trapezoids

  /** `edge_t`: the segment `v1`-`v2` and `v`, its point at the current row. */
  datatype Edge = Edge(v: Vertex, v1: Vertex, v2: Vertex)

  /** `trapezoid_t`: the rows `top..bottom` between two edges. */
  datatype Trapezoid = Trapezoid(top: real, bottom: real, left: Edge, right: Edge)

  /** The edge runs downwards and covers the rows of the trapezoid. */
  predicate Spans(e: Edge, top: real, bottom: real) {
    e.v1.pos.y < e.v2.pos.y && e.v1.pos.y <= top && bottom <= e.v2.pos.y
  }

  /** An edge from `a` to `b`. Its current point is not set by the source
      until `EdgeInterp`; the model starts it at `a`. */
  function EdgeOf(a: Vertex, b: Vertex): Edge {
    Edge(a, a, b)
  }

  function Min3(a: real, b: real, c: real): real {
    if a <= b && a <= c then a else if b <= c then b else c
  }

  function Max3(a: real, b: real, c: real): real {
    if a >= b && a >= c then a else if b >= c then b else c
  }

  /** The median of three: the value lying between the other two. */
  function Mid3(a: real, b: real, c: real): real {
    if (a <= b <= c) || (c <= b <= a) then b
    else if (b <= a <= c) || (c <= a <= b) then a
    else c
  }

  /** The x coordinate of the line through the edge at height `y`. */
  function XAt(e: Edge, y: real): real {
    Interp(e.v1.pos.x, e.v2.pos.x, Div(y - e.v1.pos.y, e.v2.pos.y - e.v1.pos.y))
  }

  /** The three conditional swaps at the head of `trapezoid_init_triangle`:
      afterwards the vertices are ordered by y and are the same three. */
  method SortByY(p1: Vertex, p2: Vertex, p3: Vertex) returns (a: Vertex, b: Vertex, c: Vertex)
    ensures a.pos.y <= b.pos.y <= c.pos.y
    ensures multiset{a, b, c} == multiset{p1, p2, p3}
    ensures a.pos.y == Min3(p1.pos.y, p2.pos.y, p3.pos.y) && c.pos.y == Max3(p1.pos.y, p2.pos.y, p3.pos.y)
    ensures b.pos.y == Mid3(p1.pos.y, p2.pos.y, p3.pos.y)
    ensures p1 != p2 && p1 != p3 && p2 != p3 ==> a != b && a != c && b != c
    ensures (a.pos.y == b.pos.y == c.pos.y) <==> (p1.pos.y == p2.pos.y == p3.pos.y)
    ensures (a.pos.x == b.pos.x == c.pos.x) <==> (p1.pos.x == p2.pos.x == p3.pos.x)
    ensures (a.pos.y < b.pos.y < c.pos.y) <==> Distinct(p1.pos.y, p2.pos.y, p3.pos.y)
  {
    a, b, c := p1, p2, p3;
    if a.pos.y > b.pos.y { a, b := b, a; }
    if a.pos.y > c.pos.y { a, c := c, a; }
    if b.pos.y > c.pos.y { b, c := c, b; }
  }

  predicate Distinct(a: real, b: real, c: real) {
    a != b && a != c && b != c
  }

  /** A trapezoid as `trapezoid_init_triangle` promises it: rows in order,
      both edges running down across all of its rows, and every edge
      end point one of the triangle's vertices. */
  predicate WellFormed(t: Trapezoid, vs: set<Vertex>) {
    t.top < t.bottom &&
    Spans(t.left, t.top, t.bottom) && Spans(t.right, t.top, t.bottom) &&
    t.left.v1 in vs && t.left.v2 in vs && t.right.v1 in vs && t.right.v2 in vs
  }

  /** `trapezoid_init_triangle`: split a triangle into the trapezoids it
      fills. The result is the count the source returns and the trapezoids
      it wrote into the caller's array; the count is always the number
      written, since a flat triangle that gets past the degenerate tests
      always has `top < bottom`. */
  method InitTriangle(p1: Vertex, p2: Vertex, p3: Vertex) returns (n: int, traps: seq<Trapezoid>)
    ensures 0 <= n <= 2 && |traps| == n
    ensures n == 0 <==> (p1.pos.y == p2.pos.y == p3.pos.y) || (p1.pos.x == p2.pos.x == p3.pos.x)
    ensures n == 2 <==> Distinct(p1.pos.y, p2.pos.y, p3.pos.y) && !(p1.pos.x == p2.pos.x == p3.pos.x)
    ensures forall i | 0 <= i < n :: WellFormed(traps[i], {p1, p2, p3})
    ensures n > 0 ==> traps[0].top == Min3(p1.pos.y, p2.pos.y, p3.pos.y)
    ensures n > 0 ==> traps[n - 1].bottom == Max3(p1.pos.y, p2.pos.y, p3.pos.y)
    ensures n == 2 ==> traps[0].bottom == traps[1].top == Mid3(p1.pos.y, p2.pos.y, p3.pos.y)
    ensures n == 1 ==>
      traps[0].left.v1.pos.x <= traps[0].right.v1.pos.x && traps[0].left.v2.pos.x <= traps[0].right.v2.pos.x
    ensures n == 2 ==> XAt(traps[0].left, traps[0].bottom) <= XAt(traps[0].right, traps[0].bottom)
    ensures n == 2 ==> XAt(traps[1].left, traps[1].top) <= XAt(traps[1].right, traps[1].top)
    ensures n == 2 ==> traps[0].left.v1 == traps[0].right.v1 && traps[1].left.v2 == traps[1].right.v2
    ensures n == 2 ==> traps[0].left == traps[1].left || traps[0].right == traps[1].right
    ensures p1 != p2 && p1 != p3 && p2 != p3 ==>
      forall i | 0 <= i < n :: (traps[i].left.v1, traps[i].left.v2) != (traps[i].right.v1, traps[i].right.v2)
  {
    var a, b, c := SortByY(p1, p2, p3);
    ghost var vs := {p1, p2, p3};
    assert a in vs && b in vs && c in vs;
    if a.pos.y == b.pos.y && a.pos.y == c.pos.y {
      return 0, [];
    }
    if a.pos.x == b.pos.x && a.pos.x == c.pos.x {
      return 0, [];
    }
    if a.pos.y == b.pos.y {
      // flat top: apex c below, a on the left
      if a.pos.x > b.pos.x { a, b := b, a; }
      var t := Trapezoid(a.pos.y, c.pos.y, EdgeOf(a, c), EdgeOf(b, c));
      assert WellFormed(t, vs);
      n := if t.top < t.bottom then 1 else 0;
      return n, [t];
    }
    if b.pos.y == c.pos.y {
      // flat bottom: apex a above, b on the left
      if b.pos.x > c.pos.x { b, c := c, b; }
      var t := Trapezoid(a.pos.y, c.pos.y, EdgeOf(a, b), EdgeOf(a, c));
      assert WellFormed(t, vs);
      n := if t.top < t.bottom then 1 else 0;
      return n, [t];
    }
    var k := Div(c.pos.y - a.pos.y, b.pos.y - a.pos.y);
    var x := a.pos.x + (b.pos.x - a.pos.x) * k;
    if x <= c.pos.x {
      // the middle vertex b is on the left
      SideTest(a, b, c, true);
      traps := [Trapezoid(a.pos.y, b.pos.y, EdgeOf(a, b), EdgeOf(a, c)),
                Trapezoid(b.pos.y, c.pos.y, EdgeOf(b, c), EdgeOf(a, c))];
    } else {
      // the middle vertex b is on the right
      SideTest(a, b, c, false);
      traps := [Trapezoid(a.pos.y, b.pos.y, EdgeOf(a, c), EdgeOf(a, b)),
                Trapezoid(b.pos.y, c.pos.y, EdgeOf(a, c), EdgeOf(b, c))];
    }
    assert WellFormed(traps[0], vs) && WellFormed(traps[1], vs);
    n := 2;
  }

  /** The side test of the general case: extending `a`-`b` down to the
      height of `c` lands left of `c` exactly when `b` lies left of the long
      edge `a`-`c` at its own height. */
  lemma SideTest(a: Vertex, b: Vertex, c: Vertex, left: bool)
    requires a.pos.y < b.pos.y < c.pos.y
    requires left <==> a.pos.x + (b.pos.x - a.pos.x) * Div(c.pos.y - a.pos.y, b.pos.y - a.pos.y) <= c.pos.x
    ensures left <==> XAt(EdgeOf(a, b), b.pos.y) <= XAt(EdgeOf(a, c), b.pos.y)
    ensures !left ==> XAt(EdgeOf(a, c), b.pos.y) <= XAt(EdgeOf(a, b), b.pos.y)
    ensures XAt(EdgeOf(b, c), b.pos.y) == XAt(EdgeOf(a, b), b.pos.y) == b.pos.x
  {
    var h1 := b.pos.y - a.pos.y;
    var h2 := c.pos.y - a.pos.y;
    var k := Div(h2, h1);
    var q := Div(h1, h2);
    InverseRatios(h1, h2);
    var d1 := b.pos.x - a.pos.x;
    var d2 := c.pos.x - a.pos.x;
    assert XAt(EdgeOf(a, b), b.pos.y) == a.pos.x + d1 * Div(h1, h1);
    assert Div(h1, h1) == 1.0;
    assert Div(b.pos.y - b.pos.y, c.pos.y - b.pos.y) == 0.0;
    assert XAt(EdgeOf(a, c), b.pos.y) == a.pos.x + d2 * q;
    SideScale(d1, d2, k, q);
  }

  lemma InverseRatios(h1: real, h2: real)
    requires h1 > 0.0 && h2 > 0.0
    ensures Div(h2, h1) * Div(h1, h2) == 1.0 && Div(h1, h2) > 0.0
  {
    var k, q := Div(h2, h1), Div(h1, h2);
    assert (k * q) * (h1 * h2) == (k * h1) * (q * h2);
  }

  /** With `k * q == 1` and `q > 0`: `d1 * k <= d2` exactly when `d1 <= d2 * q`. */
  lemma SideScale(d1: real, d2: real, k: real, q: real)
    requires k * q == 1.0 && q > 0.0
    ensures d1 * k <= d2 <==> d1 <= d2 * q
  {
    assert (d1 * k) * q == d1 * (k * q);
  }

  /** `trapezoid_edge_interp`: move the current point of both edges to row
      `y`. Nothing but the two current points changes. */
  function EdgeInterp(trap: Trapezoid, y: real): (r: Trapezoid)
    ensures r == trap.(left := trap.left.(v := r.left.v), right := trap.right.(v := r.right.v))
    ensures trap.left.v1.pos.y != trap.left.v2.pos.y ==> r.left.v.pos.y == y
    ensures trap.right.v1.pos.y != trap.right.v2.pos.y ==> r.right.v.pos.y == y
    ensures r.left.v.pos.x == XAt(trap.left, y) && r.right.v.pos.x == XAt(trap.right, y)
  {
    var s1 := trap.left.v2.pos.y - trap.left.v1.pos.y;
    var s2 := trap.right.v2.pos.y - trap.right.v1.pos.y;
    var t1 := Div(y - trap.left.v1.pos.y, s1);
    var t2 := Div(y - trap.right.v1.pos.y, s2);
    InterpHits(trap.left.v1.pos.y, trap.left.v2.pos.y, y);
    InterpHits(trap.right.v1.pos.y, trap.right.v2.pos.y, y);
    trap.(left := trap.left.(v := VertexInterp(trap.left.v1, trap.left.v2, t1)),
          right := trap.right.(v := VertexInterp(trap.right.v1, trap.right.v2, t2)))
  }

  /** `trapezoid_edge_interp` overwrites only the current points, computed
      from the fixed end points, so interpolating again on an
      already-interpolated trapezoid gives what interpolating the original
      would: the in-place update in the row loop is harmless. */
  lemma EdgeInterpRepeat(trap: Trapezoid, y1: real, y2: real)
    ensures EdgeInterp(EdgeInterp(trap, y1), y2) == EdgeInterp(trap, y2)
  {
  }

  /** Interpolating at `t = (y - y1) / (y2 - y1)` lands on `y`. */
  lemma InterpHits(y1: real, y2: real, y: real)
    ensures y1 != y2 ==> Interp(y1, y2, Div(y - y1, y2 - y1)) == y
  {
  }

  /** On a row of a trapezoid its edges span, the current point of an edge
      lies between the edge's end points. */
  lemma EdgeInterpBetween(trap: Trapezoid, y: real)
    requires Spans(trap.left, trap.top, trap.bottom) && Spans(trap.right, trap.top, trap.bottom)
    requires trap.top <= y <= trap.bottom
    ensures Between(EdgeInterp(trap, y).left.v.pos.x, trap.left.v1.pos.x, trap.left.v2.pos.x)
    ensures Between(EdgeInterp(trap, y).right.v.pos.x, trap.right.v1.pos.x, trap.right.v2.pos.x)
  {
    var e1, e2 := trap.left, trap.right;
    var t1 := Div(y - e1.v1.pos.y, e1.v2.pos.y - e1.v1.pos.y);
    var t2 := Div(y - e2.v1.pos.y, e2.v2.pos.y - e2.v1.pos.y);
    Fraction(y - e1.v1.pos.y, e1.v2.pos.y - e1.v1.pos.y);
    Fraction(y - e2.v1.pos.y, e2.v2.pos.y - e2.v1.pos.y);
    InterpBetween(e1.v1.pos.x, e1.v2.pos.x, t1);
    InterpBetween(e2.v1.pos.x, e2.v2.pos.x, t2);
  }

  predicate Between(a: real, x1: real, x2: real) {
    (x1 <= a <= x2) || (x2 <= a <= x1)
  }

  lemma Fraction(a: real, b: real)
    requires 0.0 <= a <= b && 0.0 < b
    ensures 0.0 <= Div(a, b) <= 1.0
  {
    var q := Div(a, b);
    if q > 1.0 {
      assert q * b > 1.0 * b;
    }
  }

  /** `scanline_t`: the current vertex, its per-pixel step, the first pixel
      `x`, the row `y` and the number of pixels `w`. */
  datatype Scanline = Scanline(v: Vertex, step: Vertex, x: int, y: int, w: int)

  /** `trapezoid_init_scan_line`: the span from the left edge's current
      point to the right edge's, both rounded by `(int)(x + 0.5)`; it is
      empty when the edges meet or cross. */
  function InitScanLine(trap: Trapezoid, y: int): (s: Scanline)
    ensures s.y == y && s.v == trap.left.v
    ensures s.x == Trunc(trap.left.v.pos.x + 0.5)
    ensures s.w >= 0
    ensures trap.left.v.pos.x >= trap.right.v.pos.x ==> s.w == 0
    ensures trap.left.v.pos.x < trap.right.v.pos.x ==> s.x + s.w == Trunc(trap.right.v.pos.x + 0.5)
  {
    var width := trap.right.v.pos.x - trap.left.v.pos.x;
    var x := Trunc(trap.left.v.pos.x + 0.5);
    var w := if trap.left.v.pos.x >= trap.right.v.pos.x then 0 else Trunc(trap.right.v.pos.x + 0.5) - x;
    RoundedSpan(trap.left.v.pos.x, trap.right.v.pos.x);
    Scanline(trap.left.v, VertexDivision(trap.left.v, trap.right.v, width), x, y, w)
  }

  lemma RoundedSpan(l: real, r: real)
    ensures l < r ==> Trunc(l + 0.5) <= Trunc(r + 0.5)
  {
    if l < r {
      TruncMonotone(l + 0.5, r + 0.5);
    }
  }

  /** When the span is a whole number `n` of pixels wide, `n` steps carry the
      scanline's vertex from the left edge's point to the right edge's. */
  lemma ScanlineReachesRight(trap: Trapezoid, y: int, n: nat)
    requires n > 0 && trap.right.v.pos.x - trap.left.v.pos.x == n as real
    ensures Advance(InitScanLine(trap, y).v, InitScanLine(trap, y).step, n) == trap.right.v
  {
    DivisionAddRoundTrip(trap.left.v, trap.right.v, n);
  }
}
