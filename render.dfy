/** The render device: a framebuffer of 32-bit `0x00RRGGBB` pixels and a
    depth buffer of `1/w` values, both `height` rows of `width` cells, a
    texture table, and the render state. Triangles are drawn as wireframe
    (integer line drawing) and/or filled (trapezoids walked row by row,
    with a depth test, per-vertex colour and nearest-texel texturing). */
module Render {
  import opened Scalar
  import opened LinAlg
  import opened Geometry

  /** `UINT32`, as a pixel value. */
  type Pixel = bv32

  /** The render-state bits. */
  const WIREFRAME: bv32 := 1
  const TEXTURE: bv32 := 2
  const COLOR: bv32 := 4

  /** The conversion of a C `int` to `UINT32`: wrap modulo 2^32. */
  function AsUint32(x: int): int {
    x % 0x1_0000_0000
  }

  predicate IsInt32(x: int) {
    -0x8000_0000 <= x < 0x8000_0000
  }

  /** The single unsigned comparison `(UINT32)x < (UINT32)n` of the pixel
      routine is the two-sided bounds check `0 <= x < n`: a negative `x`
      wraps to at least 2^31, above every non-negative `int`. */
  lemma UnsignedBoundsCheck(x: int, n: int)
    requires IsInt32(x) && 0 <= n < 0x8000_0000
    ensures AsUint32(x) < AsUint32(n) <==> 0 <= x < n
  {
    if x < 0 {
      assert AsUint32(x) == x + 0x1_0000_0000;
    }
  }

  /** `(R << 16) | (G << 8) | B` for three channels in [0, 255]. Each channel
      can be read back from the packed pixel, and the top byte is 0. */
  function PackRgb(r: bv32, g: bv32, b: bv32): (p: Pixel)
    requires r < 256 && g < 256 && b < 256
    ensures p <= 0xFF_FFFF
    ensures (p >> 16) & 0xFF == r && (p >> 8) & 0xFF == g && p & 0xFF == b
  {
    (r << 16) | (g << 8) | b
  }

  /** A grey level `cc` replicated into the three channels, `cc * 0x10101`. */
  lemma GrayIsRepeated(cc: bv32)
    requires cc < 256
    ensures PackRgb(cc, cc, cc) == cc * 0x1_0101
  {
  }

  /** The grey level of row `y` in the clear gradient: 230 at the top row,
      falling to 0 at the bottom row. */
  function Level(y: int, height: int): (cc: int)
    requires height >= 2 && 0 <= y < height
    ensures 0 <= cc <= 230
    ensures y == 0 ==> cc == 230
    ensures y == height - 1 ==> cc == 0
  {
    LevelBound(height - 1 - y, height - 1);
    (height - 1 - y) * 230 / (height - 1)
  }

  /** The quotient `a * 230 / d` for `0 <= a <= d`: in [0, 230], and 230
      exactly when `a == d`. */
  lemma LevelBound(a: int, d: int)
    requires 0 <= a <= d && 0 < d
    ensures 0 <= a * 230 / d <= 230
    ensures a == d ==> a * 230 / d == 230
  {
    var q := a * 230 / d;
    assert q * d <= a * 230 < q * d + d;
    assert a * 230 <= 230 * d;
    MulCancel(q, 230, d);
    MulCancel(230, q + 1, d);
  }

  /** Cancelling a positive factor in a comparison. */
  lemma MulCancel(x: int, y: int, d: int)
    requires d > 0
    ensures x * d < y * d ==> x < y
    ensures x * d <= y * d ==> x <= y
  {
    MulStrict(x, y, d);
    MulStrict(y, x, d);
  }

  lemma MulStrict(x: int, y: int, d: int)
    requires d > 0
    ensures x < y ==> x * d < y * d
  {
    if x < y {
      assert y * d == x * d + (y - x) * d;
    }
  }

  /** Lower rows are never lighter than higher ones. */
  lemma LevelMonotone(y1: int, y2: int, height: int)
    requires height >= 2 && 0 <= y1 <= y2 < height
    ensures Level(y2, height) <= Level(y1, height)
  {
    var d := height - 1;
    var a1, a2 := (d - y1) * 230, (d - y2) * 230;
    assert a2 <= a1;
    DivMonotone(a2, a1, d);
  }

  lemma DivMonotone(a: int, b: int, d: int)
    requires 0 <= a <= b && 0 < d
    ensures a / d <= b / d
  {
    var qa, qb := a / d, b / d;
    assert qa * d <= a && b < qb * d + d;
    assert qb * d + d == (qb + 1) * d;
    MulCancel(qa, qb + 1, d);
  }

  /** The pixel `device_clear` stores in row `y`: the background colour for
      mode 0, the row's grey level otherwise. */
  function ClearColor(mode: int, y: int, height: int, background: Pixel): (c: Pixel)
    requires height >= 2 && 0 <= y < height
    ensures mode == 0 ==> c == background
    ensures mode != 0 ==> c <= 0xFF_FFFF && (c >> 16) & 0xFF == (c >> 8) & 0xFF == c & 0xFF == Level(y, height) as bv32
    ensures mode != 0 && y == height - 1 ==> c == 0
  {
    if mode == 0 then background else
      var cc := Level(y, height) as bv32;
      PackRgb(cc, cc, cc)
  }

  // ------------------------------------------------------------ line drawing

  function Abs(a: int): int {
    if a < 0 then -a else a
  }

  /** The pixel at coordinate `major` along the axis a loop walks and `minor`
      across it; `yMajor` says the walk goes along y. */
  function Pt(major: int, minor: int, yMajor: bool): (int, int) {
    if yMajor then (minor, major) else (major, minor)
  }

  function Major(p: (int, int), yMajor: bool): int {
    if yMajor then p.1 else p.0
  }

  function Minor(p: (int, int), yMajor: bool): int {
    if yMajor then p.0 else p.1
  }

  /** The pixels `for (a = from; a != to; a += inc)` plots, one per step,
      at cross coordinate `b`; `to` itself is not plotted. */
  function Run(from: int, to: int, b: int, yMajor: bool): set<(int, int)>
    decreases Abs(to - from)
  {
    if from == to then {} else {Pt(from, b, yMajor)} + Run(if from < to then from + 1 else from - 1, to, b, yMajor)
  }

  /** The pixels of the error-term loop from major coordinate `a` through
      `last`: each column (or row) plots its pixel, adds `db` to `rem`, and
      when `rem` reaches `da` steps across by `s` and plots again. */
  function Walk(a: int, b: int, last: int, da: int, db: int, rem: int, s: int, yMajor: bool): set<(int, int)>
    decreases last - a + 1
  {
    if a > last then {}
    else if rem + db >= da then
      {Pt(a, b, yMajor), Pt(a, b + s, yMajor)} + Walk(a + 1, b + s, last, da, db, rem + db - da, s, yMajor)
    else
      {Pt(a, b, yMajor)} + Walk(a + 1, b, last, da, db, rem + db, s, yMajor)
  }

  /** A walk is its first column followed by the rest. */
  lemma WalkSplit(a: int, b: int, last: int, da: int, db: int, rem: int, s: int, yMajor: bool, b': int, rem': int)
    requires a <= last
    requires b' == (if rem + db >= da then b + s else b)
    requires rem' == (if rem + db >= da then rem + db - da else rem + db)
    ensures Walk(a, b, last, da, db, rem, s, yMajor) ==
      Walk(a, b, a, da, db, rem, s, yMajor) + Walk(a + 1, b', last, da, db, rem', s, yMajor)
  {
    assert Walk(a + 1, b + s, a, da, db, rem + db - da, s, yMajor) == {};
    assert Walk(a + 1, b, a, da, db, rem + db, s, yMajor) == {};
  }

  /** The pixels `device_draw_line` plots from `(x1, y1)` to `(x2, y2)`.
      With `pastEnd` the error-term loops run through the end column (or
      row), as the source's `x <= x2` and `y <= y2` do; without it they
      stop one short of it, and the end point is plotted afterwards in
      either case. */
  function LineOf(x1: int, y1: int, x2: int, y2: int, pastEnd: bool): set<(int, int)> {
    if x1 == x2 && y1 == y2 then {(x1, y1)}
    else if x1 == x2 then Run(y1, y2, x1, true) + {(x2, y2)}
    else if y1 == y2 then Run(x1, x2, y1, false) + {(x2, y2)}
    else
      var dx := Abs(x2 - x1);
      var dy := Abs(y2 - y1);
      if dx >= dy then
        var swap := x2 < x1;
        var sx, sy := (if swap then x2 else x1), (if swap then y2 else y1);
        var ex, ey := (if swap then x1 else x2), (if swap then y1 else y2);
        Walk(sx, sy, if pastEnd then ex else ex - 1, dx, dy, 0, if ey >= sy then 1 else -1, false) + {(ex, ey)}
      else
        var swap := y2 < y1;
        var sx, sy := (if swap then x2 else x1), (if swap then y2 else y1);
        var ex, ey := (if swap then x1 else x2), (if swap then y1 else y2);
        Walk(sy, sx, if pastEnd then ey else ey - 1, dy, dx, 0, if ex >= sx then 1 else -1, true) + {(ex, ey)}
  }

  /** The line as the source's loop bounds draw it. */
  function LinePointsAsWritten(x1: int, y1: int, x2: int, y2: int): set<(int, int)> {
    LineOf(x1, y1, x2, y2, true)
  }

  /** The line with the error-term loops stopping before the end point. */
  function LinePoints(x1: int, y1: int, x2: int, y2: int): set<(int, int)> {
    LineOf(x1, y1, x2, y2, false)
  }

  predicate InBox(p: (int, int), x1: int, y1: int, x2: int, y2: int) {
    (if x1 <= x2 then x1 <= p.0 <= x2 else x2 <= p.0 <= x1) &&
    (if y1 <= y2 then y1 <= p.1 <= y2 else y2 <= p.1 <= y1)
  }

  /** Both end points are plotted, in every branch and either loop bound. */
  lemma LineEndpoints(x1: int, y1: int, x2: int, y2: int, pastEnd: bool)
    ensures (x1, y1) in LineOf(x1, y1, x2, y2, pastEnd)
    ensures (x2, y2) in LineOf(x1, y1, x2, y2, pastEnd)
  {
  }

  /** A vertical line is exactly the column of pixels between its end
      points, a horizontal one exactly the row; equal end points give the
      single pixel. */
  lemma LineAxisAligned(x1: int, y1: int, x2: int, y2: int, p: (int, int))
    ensures x1 == x2 ==> (p in LinePoints(x1, y1, x2, y2) <==> p.0 == x1 && InBox(p, x1, y1, x2, y2))
    ensures y1 == y2 ==> (p in LinePoints(x1, y1, x2, y2) <==> p.1 == y1 && InBox(p, x1, y1, x2, y2))
  {
    if x1 == x2 && y1 != y2 {
      RunMembers(y1, y2, x1, true, p);
    } else if y1 == y2 && x1 != x2 {
      RunMembers(x1, x2, y1, false, p);
    }
  }

  /** The half-open range from `from` towards `to`. */
  predicate HalfOpen(t: int, from: int, to: int) {
    if from <= to then from <= t < to else to < t <= from
  }

  lemma {:induction false} RunMembers(from: int, to: int, b: int, yMajor: bool, p: (int, int))
    ensures p in Run(from, to, b, yMajor) <==> Minor(p, yMajor) == b && HalfOpen(Major(p, yMajor), from, to)
    decreases Abs(to - from)
  {
    if from != to {
      RunMembers(if from < to then from + 1 else from - 1, to, b, yMajor, p);
    }
  }

  /** `m` lies between `b` and `b + s * D` for a unit step `s`. */
  predicate Within(m: int, b: int, s: int, D: int) {
    (s == 1 && b <= m <= b + D) || (s == -1 && b - D <= m <= b)
  }

  /** The error-term invariant: with `D` cross steps left to make and
      `last + 1 - a` columns left to walk, `rem == D * da - (columns) * db`
      and `0 <= rem < da`. Under it the walk never leaves the columns
      `a..last` or the rows between `b` and `b + s * D`. */
  lemma {:induction false} WalkBounded(a: int, b: int, last: int, da: int, db: int, rem: int, s: int,
                                       yMajor: bool, D: int, p: (int, int))
    requires 0 < da && 0 <= db <= da && (s == 1 || s == -1)
    requires 0 <= rem < da && 0 <= D && a <= last + 1
    requires rem == D * da - (last + 1 - a) * db
    requires p in Walk(a, b, last, da, db, rem, s, yMajor)
    ensures a <= Major(p, yMajor) <= last
    ensures Within(Minor(p, yMajor), b, s, D)
    decreases last - a + 1
  {
    ErrorStep(last - a, da, db, rem, D);
    assert last + 1 - (a + 1) == last - a;
    if rem + db >= da {
      if p != Pt(a, b, yMajor) && p != Pt(a, b + s, yMajor) {
        WalkBounded(a + 1, b + s, last, da, db, rem + db - da, s, yMajor, D - 1, p);
      }
    } else if p != Pt(a, b, yMajor) {
      WalkBounded(a + 1, b, last, da, db, rem + db, s, yMajor, D, p);
    }
  }

  /** One step of the error term keeps its invariant, with `n` columns left
      after this one; a cross step is only taken while one is left to make. */
  lemma ErrorStep(n: int, da: int, db: int, rem: int, D: int)
    requires 0 < da && 0 <= db <= da && 0 <= rem < da && 0 <= D && 0 <= n
    requires rem == D * da - (n + 1) * db
    ensures rem + db >= da ==> 1 <= D && rem + db - da == (D - 1) * da - n * db && rem + db - da < da
    ensures rem + db < da ==> rem + db == D * da - n * db
  {
    assert (n + 1) * db == n * db + db;
    MulNonneg(n, db);
    if rem + db >= da {
      MulCancel(1, D, da);
      assert (D - 1) * da == D * da - da;
    }
  }

  lemma MulNonneg(x: int, y: int)
    requires 0 <= x && 0 <= y
    ensures 0 <= x * y
  {
  }

  /** With the loops stopping before the end point, every plotted pixel
      lies in the bounding box of the two end points. */
  lemma LineInBox(x1: int, y1: int, x2: int, y2: int, p: (int, int))
    requires p in LinePoints(x1, y1, x2, y2)
    ensures InBox(p, x1, y1, x2, y2)
  {
    if x1 == x2 || y1 == y2 {
      LineAxisAligned(x1, y1, x2, y2, p);
    } else {
      var dx, dy := Abs(x2 - x1), Abs(y2 - y1);
      if dx >= dy {
        var swap := x2 < x1;
        var sx, sy := (if swap then x2 else x1), (if swap then y2 else y1);
        var ex, ey := (if swap then x1 else x2), (if swap then y1 else y2);
        var s := if ey >= sy then 1 else -1;
        if p != (ex, ey) {
          assert dy * dx - (ex - sx) * dy == 0;
          WalkBounded(sx, sy, ex - 1, dx, dy, 0, s, false, dy, p);
        }
      } else {
        var swap := y2 < y1;
        var sx, sy := (if swap then x2 else x1), (if swap then y2 else y1);
        var ex, ey := (if swap then x1 else x2), (if swap then y1 else y2);
        var s := if ex >= sx then 1 else -1;
        if p != (ex, ey) {
          assert dx * dy - (ey - sy) * dx == 0;
          WalkBounded(sy, sx, ey - 1, dy, dx, 0, s, true, dx, p);
        }
      }
    }
  }

  /** The source's loop bound `x <= x2` overshoots on a diagonal: from
      (0, 0) to (1, 1) it also plots (1, 2), outside the line's box. */
  lemma DiagonalOvershoot()
    ensures (1, 2) in LinePointsAsWritten(0, 0, 1, 1)
    ensures !InBox((1, 2), 0, 0, 1, 1)
  {
    assert Walk(1, 1, 1, 1, 1, 0, 1, false) == {(1, 1), (1, 2)} + Walk(2, 2, 1, 1, 1, 0, 1, false);
  }

  /** A walk and its one-column-longer version differ by the same pixels
      as their tails after the first column. */
  lemma WalkGrow(a: int, b: int, last: int, da: int, db: int, rem: int, s: int, yMajor: bool,
                 b': int, rem': int, tail: set<(int, int)>)
    requires a <= last
    requires b' == (if rem + db >= da then b + s else b)
    requires rem' == (if rem + db >= da then rem + db - da else rem + db)
    requires Walk(a + 1, b', last + 1, da, db, rem', s, yMajor) == Walk(a + 1, b', last, da, db, rem', s, yMajor) + tail
    ensures Walk(a, b, last + 1, da, db, rem, s, yMajor) == Walk(a, b, last, da, db, rem, s, yMajor) + tail
  {
    WalkSplit(a, b, last + 1, da, db, rem, s, yMajor, b', rem');
    WalkSplit(a, b, last, da, db, rem, s, yMajor, b', rem');
    var col, rest := Walk(a, b, a, da, db, rem, s, yMajor), Walk(a + 1, b', last, da, db, rem', s, yMajor);
    assert col + (rest + tail) == (col + rest) + tail;
  }

  /** `D` unit steps across from `b` in direction `s`. */
  function Across(b: int, s: int, D: int): int {
    if s == 1 then b + D else b - D
  }

  /** The cross coordinate and error term the walk from `a` through `last`
      leaves behind. */
  function WalkEnd(a: int, b: int, last: int, da: int, db: int, rem: int, s: int): (int, int)
    decreases last - a + 1
  {
    if a > last then (b, rem)
    else if rem + db >= da then WalkEnd(a + 1, b + s, last, da, db, rem + db - da, s)
    else WalkEnd(a + 1, b, last, da, db, rem + db, s)
  }

  /** Walking one column further adds just that column, entered in the
      state the shorter walk leaves behind. */
  lemma {:induction false} WalkExtend(a: int, b: int, last: int, da: int, db: int, rem: int, s: int, yMajor: bool)
    requires a <= last + 1
    ensures var e := WalkEnd(a, b, last, da, db, rem, s);
      Walk(a, b, last + 1, da, db, rem, s, yMajor) ==
      Walk(a, b, last, da, db, rem, s, yMajor) + Walk(last + 1, e.0, last + 1, da, db, e.1, s, yMajor)
    decreases last - a + 1
  {
    if a <= last {
      var step := rem + db >= da;
      var b', rem' := (if step then b + s else b), (if step then rem + db - da else rem + db);
      WalkExtend(a + 1, b', last, da, db, rem', s, yMajor);
      var e := WalkEnd(a, b, last, da, db, rem, s);
      WalkGrow(a, b, last, da, db, rem, s, yMajor, b', rem', Walk(last + 1, e.0, last + 1, da, db, e.1, s, yMajor));
    }
  }

  /** Under the error-term invariant of `WalkBounded`, the walk ends after
      all `D` cross steps have been made, with the error term back at zero. */
  lemma {:induction false} WalkEndAt(a: int, b: int, last: int, da: int, db: int, rem: int, s: int, D: int)
    requires 0 < da && 0 <= db <= da && (s == 1 || s == -1)
    requires 0 <= rem < da && 0 <= D && a <= last + 1
    requires rem == D * da - (last + 1 - a) * db
    ensures WalkEnd(a, b, last, da, db, rem, s) == (Across(b, s, D), 0)
    decreases last - a + 1
  {
    if a == last + 1 {
      MulCancel(D, 1, da);
      assert D == 0 && rem == 0;
    } else {
      ErrorStep(last - a, da, db, rem, D);
      assert last + 1 - (a + 1) == last - a;
      if rem + db >= da {
        WalkEndAt(a + 1, b + s, last, da, db, rem + db - da, s, D - 1);
        assert WalkEnd(a, b, last, da, db, rem, s) == WalkEnd(a + 1, b + s, last, da, db, rem + db - da, s);
        assert Across(b + s, s, D - 1) == Across(b, s, D);
      } else {
        WalkEndAt(a + 1, b, last, da, db, rem + db, s, D);
        assert WalkEnd(a, b, last, da, db, rem, s) == WalkEnd(a + 1, b, last, da, db, rem + db, s);
      }
    }
  }

  /** Running the error-term loop through the end column adds nothing but
      the end point, except when the slope is exactly 1, where the last
      column also steps one beyond the end point. */
  lemma WalkPastEnd(sa: int, sb: int, ea: int, eb: int, da: int, db: int, yMajor: bool)
    requires sa < ea && da == ea - sa && db == Abs(eb - sb) && 0 <= db <= da
    ensures var s := if eb >= sb then 1 else -1;
      Walk(sa, sb, ea, da, db, 0, s, yMajor) + {Pt(ea, eb, yMajor)} ==
      Walk(sa, sb, ea - 1, da, db, 0, s, yMajor) + {Pt(ea, eb, yMajor)} +
      (if db == da then {Pt(ea, eb + s, yMajor)} else {})
  {
    var s := if eb >= sb then 1 else -1;
    assert db * da - (ea - 1 + 1 - sa) * db == 0;
    WalkExtend(sa, sb, ea - 1, da, db, 0, s, yMajor);
    WalkEndAt(sa, sb, ea - 1, da, db, 0, s, db);
  }

  /** The source's loop bounds change the line only on an exact diagonal,
      and there by the single pixel one row beyond the end point with the
      larger x; every other line is the one the corrected bounds draw. */
  lemma LineFootprint(x1: int, y1: int, x2: int, y2: int)
    ensures Abs(x2 - x1) != Abs(y2 - y1) || x1 == x2 ==>
      LinePointsAsWritten(x1, y1, x2, y2) == LinePoints(x1, y1, x2, y2)
    ensures Abs(x2 - x1) == Abs(y2 - y1) && x1 != x2 ==>
      var ex, ey, sy := (if x2 < x1 then x1 else x2), (if x2 < x1 then y1 else y2), (if x2 < x1 then y2 else y1);
      LinePointsAsWritten(x1, y1, x2, y2) == LinePoints(x1, y1, x2, y2) + {(ex, ey + (if ey >= sy then 1 else -1))}
  {
    if x1 != x2 && y1 != y2 {
      var dx, dy := Abs(x2 - x1), Abs(y2 - y1);
      if dx >= dy {
        var swap := x2 < x1;
        WalkPastEnd(if swap then x2 else x1, if swap then y2 else y1, if swap then x1 else x2, if swap then y1 else y2,
                    dx, dy, false);
      } else {
        var swap := y2 < y1;
        WalkPastEnd(if swap then y2 else y1, if swap then x2 else x1, if swap then y1 else y2, if swap then x1 else x2,
                    dy, dx, true);
      }
    }
  }

  /** The texel index `clamp((int)(t * maxT + 0.5), 0, size - 1)` of
      `device_texture_read`: always a valid index, and, while `t * maxT` lies
      on the texture, the nearest one (rounding half up). */
  function TexelIndex(t: real, maxT: real, size: int): (i: int)
    ensures 1 <= size ==> 0 <= i < size
    ensures 1 <= size && 0.0 <= t * maxT <= (size - 1) as real ==>
      t * maxT - 0.5 < i as real <= t * maxT + 0.5
  {
    Clamp(Trunc(t * maxT + 0.5), 0, size - 1)
  }

  /** One colour channel of `device_draw_scanline`: `clamp((int)(c * 255), 0, 255)`.
      Intensities in [0, 1] map to [0, 255] by truncation; outside they saturate. */
  function Channel(c: real): (b: int)
    ensures 0 <= b <= 255
    ensures 0.0 <= c <= 1.0 ==> b == Trunc(c * 255.0)
    ensures c <= 0.0 ==> b == 0
    ensures 1.0 <= c ==> b == 255
  {
    var q := c * 255.0;
    ScaleByRange(c, 255.0);
    Clamp(Trunc(q), 0, 255)
  }

  lemma ScaleByRange(c: real, k: real)
    requires 0.0 < k
    ensures 0.0 <= c <= 1.0 ==> 0.0 <= c * k <= k
    ensures c <= 0.0 ==> c * k <= 0.0
    ensures 1.0 <= c ==> k <= c * k
  {
    if 0.0 <= c <= 1.0 {
      MulBetween(k, c);
    } else if 1.0 <= c {
      assert c * k - k == (c - 1.0) * k;
    }
  }

  /** An attribute divided by `w` in `RhwInit`, multiplied back by
      `w = 1 / rhw` at a pixel. */
  function Corrected(a: real, rhw: real): real {
    a * Recip(rhw)
  }

  /** The packed colour of a pixel in colour mode. Each channel is the
      perspective-corrected intensity, scaled to [0, 255]. */
  function VertexColor(v: Vertex): (p: Pixel)
    ensures p <= 0xFF_FFFF
    ensures (p >> 16) & 0xFF == Channel(Corrected(v.color.r, v.rhw)) as bv32
    ensures (p >> 8) & 0xFF == Channel(Corrected(v.color.g, v.rhw)) as bv32
    ensures p & 0xFF == Channel(Corrected(v.color.b, v.rhw)) as bv32
  {
    PackRgb(Channel(Corrected(v.color.r, v.rhw)) as bv32, Channel(Corrected(v.color.g, v.rhw)) as bv32,
            Channel(Corrected(v.color.b, v.rhw)) as bv32)
  }

  /** At a triangle corner the perspective correction is exact: a vertex
      prepared by `RhwInit` shades to its own colour. */
  lemma CornerColor(v: Vertex)
    requires v.pos.w != 0.0
    ensures VertexColor(RhwInit(v)) == PackRgb(Channel(v.color.r) as bv32, Channel(v.color.g) as bv32, Channel(v.color.b) as bv32)
  {
    RhwInitRecovers(v);
  }

  /** The scanline `device_render_trap` draws on row `j`: the trapezoid's
      edges interpolated at the row's centre `j + 0.5`. It starts at the
      rounded x where the left edge crosses that height and, when the right
      edge lies further right, ends at the rounded x where the right edge
      crosses it; otherwise it is empty. */
  function RowScan(trap: Trapezoid, j: int): (s: Scanline)
    ensures s.y == j
    ensures s.x == Trunc(XAt(trap.left, j as real + 0.5) + 0.5)
    ensures XAt(trap.left, j as real + 0.5) < XAt(trap.right, j as real + 0.5) ==>
      s.x + s.w == Trunc(XAt(trap.right, j as real + 0.5) + 0.5)
    ensures XAt(trap.left, j as real + 0.5) >= XAt(trap.right, j as real + 0.5) ==> s.w == 0
  {
    InitScanLine(EdgeInterp(trap, j as real + 0.5), j)
  }

  /** The rows `device_render_trap` draws: from the rounded top to before
      the rounded bottom, on screen. */
  predicate RowDrawn(trap: Trapezoid, j: int, height: int) {
    Trunc(trap.top + 0.5) <= j < Trunc(trap.bottom + 0.5) && 0 <= j < height
  }

  class Device {
    const transform: Transform
    const width: int
    const height: int
    /** `framebuffer[y][x]`, as the cell `[y, x]`. */
    const framebuffer: array2<Pixel>
    /** `zbuffer[y][x]`: the `rhw` of the nearest surface drawn so far. */
    const zbuffer: array2<real>
    /** The 1024 texture row pointers, each as the row of texels it points at. */
    var texture: seq<seq<Pixel>>
    var texWidth: int
    var texHeight: int
    var maxU: real
    var maxV: real
    var renderState: bv32
    var background: Pixel
    var foreground: Pixel

    predicate Valid()
      reads this, transform
    {
      0 <= width && 0 <= height &&
      framebuffer.Length0 == height && framebuffer.Length1 == width &&
      zbuffer.Length0 == height && zbuffer.Length1 == width &&
      framebuffer as object != zbuffer as object &&
      |texture| == 1024 &&
      transform.Valid() &&
      zbuffer != transform.world && zbuffer != transform.view &&
      zbuffer != transform.projection && zbuffer != transform.transform &&
      framebuffer as object != transform.world as object && framebuffer as object != transform.view as object &&
      framebuffer as object != transform.projection as object &&
      framebuffer as object != transform.transform as object
    }

    /** The texture can be sampled: at least one texel, and the first
        `texHeight` rows hold at least `texWidth` texels. */
    predicate TextureReady()
      reads this
    {
      1 <= texWidth && 1 <= texHeight <= |texture| &&
      forall j | 0 <= j < texHeight :: texWidth <= |texture[j]|
    }

    /** The abstract state `device_init` leaves: buffers of the window's
        size, a 2x2 texture of black texels, grey background, black
        foreground, wireframe rendering, and the initial transform. */
    constructor (width: int, height: int, fax: real)
      requires 0 <= width && 0 <= height
      ensures Valid() && TextureReady()
      ensures this.width == width && this.height == height
      ensures fresh(framebuffer) && fresh(zbuffer) && fresh(transform)
      ensures texture[0] == [0, 0] && texture[1] == [0, 0]
      ensures texWidth == 2 && texHeight == 2 && maxU == 1.0 && maxV == 1.0
      ensures background == 0xC0_C0C0 && foreground == 0 && renderState == WIREFRAME
      ensures transform.w == width as real && transform.h == height as real
      ensures Contents(transform.world) == Identity() && Contents(transform.view) == Identity()
      ensures Contents(transform.projection) == Perspective(fax, Div(width as real, height as real), 1.0, 500.0)
      ensures Contents(transform.transform)
           == Product(Product(Contents(transform.world), Contents(transform.view)), Contents(transform.projection))
    {
      this.width := width;
      this.height := height;
      framebuffer := new Pixel[height, width];
      zbuffer := new real[height, width];
      texture := [[0, 0], [0, 0]] + seq(1022, _ => []);
      texWidth, texHeight := 2, 2;
      maxU, maxV := 1.0, 1.0;
      background := 0xC0_C0C0;
      foreground := 0;
      renderState := WIREFRAME;
      transform := new Transform(width, height, fax);
    }

    /** `device_set_texture`: point the first `h` rows of the table at the
        rows of `bits` and record the size. */
    method SetTexture(bits: seq<seq<Pixel>>, w: int, h: int)
      requires Valid()
      requires w <= 1024 && h <= 1024
      requires h <= |bits|
      modifies this
      ensures Valid()
      ensures forall j | 0 <= j < 1024 :: texture[j] == if j < h then bits[j] else old(texture[j])
      ensures texWidth == w && texHeight == h && maxU == (w - 1) as real && maxV == (h - 1) as real
      ensures renderState == old(renderState) && background == old(background) && foreground == old(foreground)
      ensures 1 <= w && 1 <= h && (forall j | 0 <= j < h :: w <= |bits[j]|) ==> TextureReady()
    {
      var j := 0;
      while j < h
        invariant 0 <= j <= (if h <= 0 then 0 else h)
        invariant |texture| == 1024
        invariant forall k | 0 <= k < 1024 :: texture[k] == if k < j then bits[k] else old(texture[k])
        invariant renderState == old(renderState) && background == old(background) && foreground == old(foreground)
      {
        texture := texture[j := bits[j]];
        j := j + 1;
      }
      texWidth := w;
      texHeight := h;
      maxU := (w - 1) as real;
      maxV := (h - 1) as real;
    }

    /** The framebuffer changed from its state on entry exactly at the
        in-range cells of `S`, which now hold `c`. */
    twostate predicate Painted(new S: set<(int, int)>, c: Pixel)
      reads this
      reads framebuffer
    {
      forall y, x | 0 <= y < framebuffer.Length0 && 0 <= x < framebuffer.Length1 ::
        framebuffer[y, x] == if (x, y) in S then c else old(framebuffer[y, x])
    }

    /** `device_pixel`: store `color` at `(x, y)` if that is on screen. */
    method PutPixel(x: int, y: int, color: Pixel)
      requires Valid()
      modifies framebuffer
      ensures Painted({(x, y)}, color)
    {
      if 0 <= x < width && 0 <= y < height {
        framebuffer[y, x] := color;
      }
    }

    /** `device_draw_line`, with the error-term loops stopping before the
        end point (see `LinePoints`). Every pixel goes through `PutPixel`. */
    method DrawLine(x1: int, y1: int, x2: int, y2: int, c: Pixel)
      requires Valid()
      modifies framebuffer
      ensures Painted(LinePoints(x1, y1, x2, y2), c)
    {
      if x1 == x2 && y1 == y2 {
        PutPixel(x1, y1, c);
      } else if x1 == x2 {
        PlotRun(y1, y2, x1, true, c);
        PutPixel(x2, y2, c);
      } else if y1 == y2 {
        PlotRun(x1, x2, y1, false, c);
        PutPixel(x2, y2, c);
      } else {
        var dx := if x1 < x2 then x2 - x1 else x1 - x2;
        var dy := if y1 < y2 then y2 - y1 else y1 - y2;
        if dx >= dy {
          var sx, sy, ex, ey := x1, y1, x2, y2;
          if ex < sx {
            sx, sy, ex, ey := x2, y2, x1, y1;
          }
          PlotWalk(sx, sy, ex, ey, dx, dy, false, c);
          PutPixel(ex, ey, c);
        } else {
          var sx, sy, ex, ey := x1, y1, x2, y2;
          if ey < sy {
            sx, sy, ex, ey := x2, y2, x1, y1;
          }
          PlotWalk(sy, sx, ey, ex, dy, dx, true, c);
          PutPixel(ex, ey, c);
        }
      }
    }

    /** The vertical and horizontal loops of `device_draw_line`:
        `for (a = from; a != to; a += inc)` with `inc` towards `to`. */
    method PlotRun(from: int, to: int, b: int, yMajor: bool, c: Pixel)
      requires Valid()
      modifies framebuffer
      ensures Painted(Run(from, to, b, yMajor), c)
    {
      var inc := if from <= to then 1 else -1;
      var a := from;
      ghost var done: set<(int, int)> := {};
      while a != to
        invariant if from <= to then from <= a <= to else to <= a <= from
        invariant done + Run(a, to, b, yMajor) == Run(from, to, b, yMajor)
        invariant Painted(done, c)
        decreases Abs(to - a)
      {
        var p := Pt(a, b, yMajor);
        PutPixel(p.0, p.1, c);
        ghost var rest := Run(a + inc, to, b, yMajor);
        assert Run(a, to, b, yMajor) == {p} + rest;
        assert (done + {p}) + rest == done + ({p} + rest);
        done := done + {p};
        a := a + inc;
      }
    }

    /** The error-term loops of `device_draw_line`, along x (`yMajor` false)
        or along y, from `a0` up to but not including `aEnd`, stepping across
        towards `bEnd`. The error term stays in `[0, da)` throughout. */
    method PlotWalk(a0: int, b0: int, aEnd: int, bEnd: int, da: int, db: int, yMajor: bool, c: Pixel)
      requires Valid()
      requires a0 <= aEnd && 0 < da && 0 <= db <= da
      modifies framebuffer
      ensures Painted(Walk(a0, b0, aEnd - 1, da, db, 0, if bEnd >= b0 then 1 else -1, yMajor), c)
    {
      var s := if bEnd >= b0 then 1 else -1;
      var a, b, rem := a0, b0, 0;
      ghost var done: set<(int, int)> := {};
      while a < aEnd
        invariant a0 <= a <= aEnd
        invariant 0 <= rem < da
        invariant done + Walk(a, b, aEnd - 1, da, db, rem, s, yMajor) == Walk(a0, b0, aEnd - 1, da, db, 0, s, yMajor)
        invariant Painted(done, c)
      {
        ghost var col := Walk(a, b, a, da, db, rem, s, yMajor);
        var b', rem' := PlotColumn(a, b, da, db, rem, s, yMajor, c);
        WalkSplit(a, b, aEnd - 1, da, db, rem, s, yMajor, b', rem');
        ghost var rest := Walk(a + 1, b', aEnd - 1, da, db, rem', s, yMajor);
        assert (done + col) + rest == done + (col + rest);
        done := done + col;
        a, b, rem := a + 1, b', rem';
      }
    }

    /** One iteration of the error-term loop: plot the pixel at major
        coordinate `a`, add `db` to the error term, and when it reaches `da`
        step across by `s` and plot again. */
    method PlotColumn(a: int, b: int, da: int, db: int, rem: int, s: int, yMajor: bool, c: Pixel)
      returns (b': int, rem': int)
      requires Valid()
      requires 0 <= rem < da && 0 <= db <= da
      modifies framebuffer
      ensures b' == (if rem + db >= da then b + s else b)
      ensures rem' == (if rem + db >= da then rem + db - da else rem + db)
      ensures 0 <= rem' < da
      ensures Painted(Walk(a, b, a, da, db, rem, s, yMajor), c)
    {
      var p := Pt(a, b, yMajor);
      PutPixel(p.0, p.1, c);
      b', rem' := b, rem + db;
      if rem' >= da {
        rem' := rem' - da;
        b' := b' + s;
        var q := Pt(a, b', yMajor);
        PutPixel(q.0, q.1, c);
      }
    }

    /** `device_clear`: every framebuffer row gets its `ClearColor`, every
        depth cell 0. The grey level is computed for every row whatever the
        mode, so a one-row device divides by zero. */
    method Clear(mode: int)
      requires Valid() && height != 1
      modifies framebuffer, zbuffer
      ensures forall y, x | 0 <= y < height && 0 <= x < width ::
        framebuffer[y, x] == ClearColor(mode, y, height, background) && zbuffer[y, x] == 0.0
    {
      ClearFrame(mode);
      ClearDepth();
    }

    /** The first loop of `device_clear`, row by row, each row from its first
        cell on. */
    method ClearFrame(mode: int)
      requires Valid() && height != 1
      modifies framebuffer
      ensures forall y, x | 0 <= y < height && 0 <= x < width ::
        framebuffer[y, x] == ClearColor(mode, y, height, background)
    {
      var y := 0;
      while y < height
        invariant 0 <= y <= height
        invariant forall r, k | 0 <= r < y && 0 <= k < width :: framebuffer[r, k] == ClearColor(mode, r, height, background)
      {
        var level := Level(y, height) as bv32;
        var cc := PackRgb(level, level, level);
        if mode == 0 {
          cc := background;
        }
        assert cc == ClearColor(mode, y, height, background);
        var x := width;
        while x > 0
          invariant 0 <= x <= width
          invariant forall r, k | 0 <= r < y && 0 <= k < width :: framebuffer[r, k] == ClearColor(mode, r, height, background)
          invariant forall k | 0 <= k < width - x :: framebuffer[y, k] == cc
        {
          framebuffer[y, width - x] := cc;
          x := x - 1;
        }
        y := y + 1;
      }
    }

    /** The second loop of `device_clear`. */
    method ClearDepth()
      requires Valid()
      modifies zbuffer
      ensures forall y, x | 0 <= y < height && 0 <= x < width :: zbuffer[y, x] == 0.0
    {
      var y := 0;
      while y < height
        invariant 0 <= y <= height
        invariant forall r, k | 0 <= r < y && 0 <= k < width :: zbuffer[r, k] == 0.0
      {
        var x := width;
        while x > 0
          invariant 0 <= x <= width
          invariant forall r, k | 0 <= r < y && 0 <= k < width :: zbuffer[r, k] == 0.0
          invariant forall k | 0 <= k < width - x :: zbuffer[y, k] == 0.0
        {
          zbuffer[y, width - x] := 0.0;
          x := x - 1;
        }
        y := y + 1;
      }
    }

    /** `device_texture_read`: the texel nearest `(u * maxU, v * maxV)`,
        clamped onto the texture, so the result is always one of its texels. */
    function TextureRead(u: real, v: real): (c: Pixel)
      reads this
      requires TextureReady()
      ensures exists j, i | 0 <= j < texHeight && 0 <= i < texWidth :: c == texture[j][i]
    {
      var x := TexelIndex(u, maxU, texWidth);
      var y := TexelIndex(v, maxV, texHeight);
      texture[y][x]
    }

    /** With the scale factors `SetTexture` installs, texture coordinate
        (0, 0) reads the first texel and (1, 1) the last one. */
    lemma TextureReadCorners()
      requires TextureReady()
      requires maxU == (texWidth - 1) as real && maxV == (texHeight - 1) as real
      ensures TextureRead(0.0, 0.0) == texture[0][0]
      ensures TextureRead(1.0, 1.0) == texture[texHeight - 1][texWidth - 1]
    {
      assert 1.0 * maxU == (texWidth - 1) as real;
      assert 1.0 * maxV == (texHeight - 1) as real;
    }

    /** The colour a pixel that passes the depth test receives in
        `device_draw_scanline`, given its vertex `v` and its previous colour.
        `1 / rhw` undoes the division by `w` of `RhwInit`; colour mode packs
        the three channels, texture mode then overwrites with a texel. */
    function ShadePixel(v: Vertex, prev: Pixel): (p: Pixel)
      reads this
      requires renderState & TEXTURE != 0 ==> TextureReady()
      ensures renderState & (TEXTURE | COLOR) == 0 ==> p == prev
      ensures renderState & TEXTURE != 0 ==>
        p == TextureRead(Corrected(v.tc.u, v.rhw), Corrected(v.tc.v, v.rhw))
      ensures renderState & TEXTURE == 0 && renderState & COLOR != 0 ==> p == VertexColor(v)
    {
      var colored := if renderState & COLOR != 0 then VertexColor(v) else prev;
      if renderState & TEXTURE != 0 then TextureRead(Corrected(v.tc.u, v.rhw), Corrected(v.tc.v, v.rhw))
      else colored
    }

    /** Whether depth `z` and colour `c` are what scanline `s` leaves at
        column `px` of its row that held depth `z0` and colour `c0`: a
        covered cell whose vertex is at least as near (`rhw` at least the
        stored depth) takes that depth and its shaded colour; any other cell
        is kept. */
    predicate Shaded(s: Scanline, px: int, z0: real, c0: Pixel, z: real, c: Pixel)
      reads this
      requires renderState & TEXTURE != 0 ==> TextureReady()
    {
      if s.x <= px < s.x + s.w && z0 <= Advance(s.v, s.step, px - s.x).rhw then
        z == Advance(s.v, s.step, px - s.x).rhw && c == ShadePixel(Advance(s.v, s.step, px - s.x), c0)
      else
        z == z0 && c == c0
    }

    /** No cell of the depth buffer decreased since entry. */
    twostate predicate DepthGrows()
      reads this, transform, zbuffer
      requires Valid()
    {
      forall y, px | 0 <= y < height && 0 <= px < width :: old(zbuffer[y, px]) <= zbuffer[y, px]
    }

    /** `device_draw_scanline`: walk the `s.w` pixels from `s.x` along row
        `s.y`, adding `s.step` to the vertex after each, and depth-test and
        shade the ones on screen. Every other row is left alone. */
    method DrawScanline(s: Scanline)
      requires Valid() && 0 <= s.y < height
      requires renderState & TEXTURE != 0 ==> TextureReady()
      modifies framebuffer, zbuffer
      ensures forall y, px | 0 <= y < height && 0 <= px < width ::
        if y == s.y then Shaded(s, px, old(zbuffer[y, px]), old(framebuffer[y, px]), zbuffer[y, px], framebuffer[y, px])
        else zbuffer[y, px] == old(zbuffer[y, px]) && framebuffer[y, px] == old(framebuffer[y, px])
      ensures DepthGrows()
    {
      var x, w := s.x, s.w;
      var v := s.v;
      while w > 0
        invariant s.x <= x && w == s.w - (x - s.x)
        invariant v == Advance(s.v, s.step, x - s.x)
        invariant x - s.x > 0 ==> x - 1 < width
        invariant forall y, px | 0 <= y < height && 0 <= px < width ::
          if y == s.y && px < x then
            Shaded(s, px, old(zbuffer[y, px]), old(framebuffer[y, px]), zbuffer[y, px], framebuffer[y, px])
          else zbuffer[y, px] == old(zbuffer[y, px]) && framebuffer[y, px] == old(framebuffer[y, px])
      {
        if 0 <= x < width {
          ShadeCell(s.y, x, v);
          assert Shaded(s, x, old(zbuffer[s.y, x]), old(framebuffer[s.y, x]), zbuffer[s.y, x], framebuffer[s.y, x]);
        }
        v := VertexAdd(v, s.step);
        if x >= width {
          break;
        }
        x, w := x + 1, w - 1;
      }
    }

    /** The body of the scanline loop at an on-screen column: the depth
        test, then the depth and colour writes. No other cell changes. */
    method ShadeCell(y: int, x: int, v: Vertex)
      requires Valid() && 0 <= y < height && 0 <= x < width
      requires renderState & TEXTURE != 0 ==> TextureReady()
      modifies framebuffer, zbuffer
      ensures old(zbuffer[y, x]) <= v.rhw ==>
        zbuffer[y, x] == v.rhw && framebuffer[y, x] == ShadePixel(v, old(framebuffer[y, x]))
      ensures v.rhw < old(zbuffer[y, x]) ==>
        zbuffer[y, x] == old(zbuffer[y, x]) && framebuffer[y, x] == old(framebuffer[y, x])
      ensures forall r, k | 0 <= r < height && 0 <= k < width && (r != y || k != x) ::
        zbuffer[r, k] == old(zbuffer[r, k]) && framebuffer[r, k] == old(framebuffer[r, k])
    {
      var rhw := v.rhw;
      var z := zbuffer[y, x];
      if rhw >= z {
        var prev := framebuffer[y, x];
        zbuffer[y, x] := rhw;
        framebuffer[y, x] := ShadePixel(v, prev);
      }
    }

    /** `device_render_trap`: every row of the trapezoid on screen is drawn
        by its own scanline; the rows outside are left alone. */
    method RenderTrap(trap: Trapezoid)
      requires Valid()
      requires renderState & TEXTURE != 0 ==> TextureReady()
      modifies framebuffer, zbuffer
      ensures forall y, px | 0 <= y < height && 0 <= px < width ::
        if RowDrawn(trap, y, height) then
          Shaded(RowScan(trap, y), px, old(zbuffer[y, px]), old(framebuffer[y, px]), zbuffer[y, px], framebuffer[y, px])
        else zbuffer[y, px] == old(zbuffer[y, px]) && framebuffer[y, px] == old(framebuffer[y, px])
      ensures DepthGrows()
    {
      var top := Trunc(trap.top + 0.5);
      var bottom := Trunc(trap.bottom + 0.5);
      var j := top;
      while j < bottom
        invariant top <= j
        invariant forall y, px | 0 <= y < height && 0 <= px < width ::
          if RowDrawn(trap, y, height) && y < j then
            Shaded(RowScan(trap, y), px, old(zbuffer[y, px]), old(framebuffer[y, px]), zbuffer[y, px], framebuffer[y, px])
          else zbuffer[y, px] == old(zbuffer[y, px]) && framebuffer[y, px] == old(framebuffer[y, px])
      {
        if 0 <= j < height {
          var t := EdgeInterp(trap, j as real + 0.5);
          var s := InitScanLine(t, j);
          DrawScanline(s);
        }
        if j >= height {
          break;
        }
        j := j + 1;
      }
    }

    /** `transform_apply` of a vertex's position with the device's transform. */
    function ClipOf(v: Vertex): Vector
      reads this, transform, transform.transform
      requires Valid()
    {
      transform.Apply(v.pos)
    }

    /** The triangle survives the clipping of `device_draw_primitive`: all
        three vertices are inside the view volume. */
    predicate Visible(v1: Vertex, v2: Vertex, v3: Vertex)
      reads this, transform, transform.transform
      requires Valid()
    {
      CheckCvv(ClipOf(v1)) == 0 && CheckCvv(ClipOf(v2)) == 0 && CheckCvv(ClipOf(v3)) == 0
    }

    /** The screen position `transform_homogenize` gives a vertex. */
    function ScreenOf(v: Vertex): Vector
      reads this, transform, transform.transform
      requires Valid()
    {
      Homogenize(transform.w, transform.h, ClipOf(v))
    }

    /** The pixels of the wireframe: the lines p1-p2, p1-p3 and p3-p2 between
        the truncated screen positions. */
    function Wireframe(v1: Vertex, v2: Vertex, v3: Vertex): set<(int, int)>
      reads this, transform, transform.transform
      requires Valid()
    {
      var p1, p2, p3 := ScreenOf(v1), ScreenOf(v2), ScreenOf(v3);
      LinePoints(Trunc(p1.x), Trunc(p1.y), Trunc(p2.x), Trunc(p2.y)) +
      LinePoints(Trunc(p1.x), Trunc(p1.y), Trunc(p3.x), Trunc(p3.y)) +
      LinePoints(Trunc(p3.x), Trunc(p3.y), Trunc(p2.x), Trunc(p2.y))
    }

    /** A triangle that passes the clip test, in front of the eye, has its
        whole wireframe inside the screen rectangle `[0, w] x [0, h]`. */
    lemma WireframeOnScreen(v1: Vertex, v2: Vertex, v3: Vertex, p: (int, int))
      requires Valid() && Visible(v1, v2, v3)
      requires ClipOf(v1).w > 0.0 && ClipOf(v2).w > 0.0 && ClipOf(v3).w > 0.0
      requires transform.w >= 0.0 && transform.h >= 0.0
      requires p in Wireframe(v1, v2, v3)
      ensures 0 <= p.0 <= Trunc(transform.w) && 0 <= p.1 <= Trunc(transform.h)
    {
      ScreenBound(v1);
      ScreenBound(v2);
      ScreenBound(v3);
      var p1, p2, p3 := ScreenOf(v1), ScreenOf(v2), ScreenOf(v3);
      if p in LinePoints(Trunc(p1.x), Trunc(p1.y), Trunc(p2.x), Trunc(p2.y)) {
        LineInBox(Trunc(p1.x), Trunc(p1.y), Trunc(p2.x), Trunc(p2.y), p);
      } else if p in LinePoints(Trunc(p1.x), Trunc(p1.y), Trunc(p3.x), Trunc(p3.y)) {
        LineInBox(Trunc(p1.x), Trunc(p1.y), Trunc(p3.x), Trunc(p3.y), p);
      } else {
        LineInBox(Trunc(p3.x), Trunc(p3.y), Trunc(p2.x), Trunc(p2.y), p);
      }
    }

    lemma ScreenBound(v: Vertex)
      requires Valid() && CheckCvv(ClipOf(v)) == 0 && ClipOf(v).w > 0.0
      requires transform.w >= 0.0 && transform.h >= 0.0
      ensures 0 <= Trunc(ScreenOf(v).x) <= Trunc(transform.w)
      ensures 0 <= Trunc(ScreenOf(v).y) <= Trunc(transform.h)
    {
      HomogenizeOnScreen(transform.w, transform.h, ClipOf(v));
      TruncMonotone(ScreenOf(v).x, transform.w);
      TruncMonotone(ScreenOf(v).y, transform.h);
    }

    /** `device_draw_primitive`: transform, clip (a triangle with any vertex
        outside the view volume is dropped whole), map to the screen, then
        fill (texture or colour mode) and/or outline (wireframe mode). */
    method DrawPrimitive(v1: Vertex, v2: Vertex, v3: Vertex)
      requires Valid()
      requires renderState & TEXTURE != 0 ==> TextureReady()
      modifies framebuffer, zbuffer
      ensures !Visible(v1, v2, v3) ==> unchanged(framebuffer) && unchanged(zbuffer)
      ensures renderState & (TEXTURE | COLOR | WIREFRAME) == 0 ==> unchanged(framebuffer) && unchanged(zbuffer)
      ensures renderState & (TEXTURE | COLOR) == 0 ==> unchanged(zbuffer)
      ensures Visible(v1, v2, v3) && ClipOf(v1).w > 0.0 && ClipOf(v2).w > 0.0 && ClipOf(v3).w > 0.0 &&
              renderState & (TEXTURE | COLOR) == 0 && renderState & WIREFRAME != 0 ==>
        Painted(Wireframe(v1, v2, v3), foreground)
      ensures DepthGrows()
    {
      var c1, c2, c3 := transform.Apply(v1.pos), transform.Apply(v2.pos), transform.Apply(v3.pos);
      if CheckCvv(c1) != 0 || CheckCvv(c2) != 0 || CheckCvv(c3) != 0 {
        return;
      }
      var p1 := Homogenize(transform.w, transform.h, c1);
      var p2 := Homogenize(transform.w, transform.h, c2);
      var p3 := Homogenize(transform.w, transform.h, c3);
      if renderState & (TEXTURE | COLOR) != 0 {
        Fill(v1.(pos := p1.(w := c1.w)), v2.(pos := p2.(w := c2.w)), v3.(pos := p3.(w := c3.w)));
      }
      if renderState & WIREFRAME != 0 {
        Outline(p1, p2, p3);
      }
    }

    /** The fill step of `device_draw_primitive`, on vertices carrying their
        screen position and clip-space `w`: split into trapezoids and render
        each with the depth test. */
    method Fill(v1: Vertex, v2: Vertex, v3: Vertex)
      requires Valid()
      requires renderState & TEXTURE != 0 ==> TextureReady()
      modifies framebuffer, zbuffer
      ensures DepthGrows()
    {
      var t1, t2, t3 := RhwInit(v1), RhwInit(v2), RhwInit(v3);
      var n, traps := InitTriangle(t1, t2, t3);
      if n >= 1 {
        RenderTrap(traps[0]);
      }
      if n >= 2 {
        RenderTrap(traps[1]);
      }
    }

    /** The wireframe step of `device_draw_primitive`: the three edges in the
        foreground colour, between truncated screen positions. */
    method Outline(p1: Point, p2: Point, p3: Point)
      requires Valid()
      modifies framebuffer
      ensures Painted(LinePoints(Trunc(p1.x), Trunc(p1.y), Trunc(p2.x), Trunc(p2.y)) +
                      LinePoints(Trunc(p1.x), Trunc(p1.y), Trunc(p3.x), Trunc(p3.y)) +
                      LinePoints(Trunc(p3.x), Trunc(p3.y), Trunc(p2.x), Trunc(p2.y)), foreground)
    {
      DrawLine(Trunc(p1.x), Trunc(p1.y), Trunc(p2.x), Trunc(p2.y), foreground);
      DrawLine(Trunc(p1.x), Trunc(p1.y), Trunc(p3.x), Trunc(p3.y), foreground);
      DrawLine(Trunc(p3.x), Trunc(p3.y), Trunc(p2.x), Trunc(p2.y), foreground);
    }
  }
}