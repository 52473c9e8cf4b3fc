# mini3d rasteriser core, modelled in Dafny

mini3d is a small software rasteriser. This model follows its pipeline from
geometry to pixels:

1. A vertex is transformed by `world · view · projection`, using the
   row-vector convention `y = x · M`.
2. The triangle is clipped against the view volume. It is dropped whole if
   any vertex leaves the volume.
3. The perspective divide and the viewport map (with a vertical flip)
   produce screen coordinates.
4. The triangle is drawn as a wireframe with an integer error-term line
   algorithm, and/or filled. To fill it, the triangle is split into at most
   two trapezoids. These are walked row by row. Each scanline is drawn with
   a `1/w` depth test, per-vertex colour or nearest-texel texturing, and
   perspective correction.

The model has four modules, one per source file:

- `Scalar` (`scalar.dfy`) models the inline helpers `clamp` and `interp`. It
  also holds the C conversions the pipeline depends on:
  - `Trunc` is `(int)` on a float, which truncates toward zero;
  - `Div` is the float quotient;
  - `Recip` is `1.0f / x`.
- `LinAlg` (`linalg.dfy`) models the 4-component vectors and 4×4 matrices.
  - Vectors are the value type `Vector`.
  - A matrix's meaning is the value type `Matrix`, with specification
    functions `Sum`, `Difference`, `Scaled` and `Product`, `MatrixApply`, and
    the builders `Identity`, `Zero`, `Translation`, `Scaling` and
    `Perspective`.
  - The source's in-place routines are methods over `array2<real>`. Each one
    is proved to leave `Contents(c)` equal to the specification function of
    the old contents. `MatrixMul` is proved correct even when `c` aliases
    `a` or `b`.
- `Geometry` (`geometry.dfy`) covers transform.cpp:
  - the `Transform` class, with its four matrices and screen size;
  - the clip mask and the homogenisation;
  - the vertex operations, on the value type `Vertex`;
  - the triangle-to-trapezoid split;
  - edge interpolation and scanline set-up.
- `Render` (`render.dfy`) models the render device as the class `Device`.
  - It owns a framebuffer `array2<bv32>` of `0x00RRGGBB` pixels, indexed
    `[y, x]`, and a depth buffer `array2<real>` of `1/w` values.
  - Its other state is a texture table of 1024 rows, the texture size and
    scale factors, the render state bits, and the background and
    foreground colours.
  - Drawing operations are methods whose postconditions describe the new
    buffers. Line drawing uses the twostate predicate `Painted`, which
    compares each framebuffer cell with its old value. The scanline fill
    and the trapezoid rows use the ordinary predicate `Shaded`, which takes
    a cell's old and new depth and colour as arguments. `Clear` states
    every cell's new value directly.

Float values are real numbers, and every identity proved is an identity of
real arithmetic. Integer quantities are unbounded; where 32-bit behaviour
matters, it is written out:
- the unsigned bounds check of `device_pixel`;
- the `bv32` pixel and mask values.

## Model

| member | source | states |
|---|---|---|
| Scalar.Clamp | math.h:13 | for `min <= max` the result is in `[min, max]`; it is `x` inside the range, `min` below it and `max` above it |
| Scalar.Interp | math.h:16 | `t = 0` gives `x1` and `t = 1` gives `x2` |
| Scalar.InterpBetween | math.h:16 | for `t` in [0, 1] the result lies between the two end points, in either order |
| Scalar.Trunc | transform.cpp:174-175 | the C `(int)` cast truncates toward zero: for non-negative `r`, `r - 1 < i <= r`; for negative `r`, `r <= i < r + 1` |
| Scalar.TruncMonotone | transform.cpp:174-178 | truncation is monotone |
| Scalar.Div | transform.cpp:12 | for a non-zero divisor `q * b == a`; a non-negative dividend over a positive divisor gives a non-negative quotient |
| Scalar.Recip | transform.cpp:41 | for non-zero `x`, `r * x == 1`; `r` is positive exactly when `x` is |
| LinAlg.VectorAdd | math.cpp:10-15 | the sum has `w == 1` |
| LinAlg.VectorSub | math.cpp:18-23 | the difference has `w == 1` |
| LinAlg.VectorSubAdd | math.cpp:10-23 | subtracting `b` undoes adding `b`, and adding undoes subtracting; `w` is forced to 1 either way |
| LinAlg.Cross | math.cpp:31-40 | the cross product has `w == 1` |
| LinAlg.Dot | math.cpp:26-28 | the 3D dot product, ignoring `w`; a vector's dot product with itself is non-negative. `LinAlg.CrossOrthogonal` states its use with the cross product |
| LinAlg.CrossOrthogonal | math.cpp:26-40 | the cross product has zero dot product with both of its inputs |
| LinAlg.VectorInterp | math.cpp:43-48 | `w` is 1; `t = 0` gives `a` and `t = 1` gives `b`, with their `w` replaced by 1 |
| LinAlg.MatrixAdd | math.cpp:63-69 | the output array holds the entrywise sum of the old contents of `a` and `b`, whatever the aliasing |
| LinAlg.MatrixSub | math.cpp:72-78 | the output array holds the entrywise difference of the old contents |
| LinAlg.DifferenceOfSum | math.cpp:63-78 | `sub(add(a, b), b) == a` |
| LinAlg.MatrixScale | math.cpp:96-102 | the output array holds every entry of `a` times `f` |
| LinAlg.ScaledCell | math.cpp:96-102 | each entry of the scaled matrix is the entry times `f` |
| LinAlg.MatrixMul | math.cpp:81-93 | the output array holds `Product(a, b)` of the OLD contents, so `c` may alias `a` or `b`, because the product is built in a temporary and copied |
| LinAlg.ProductCell | math.cpp:81-93 | entry `[j][i]` of the product is `Σk a[j][k] · b[k][i]` |
| LinAlg.Copy | math.cpp:92 | the copy of the temporary leaves `c` equal to it |
| LinAlg.ApplyColumn | math.cpp:105-111 | component `i` of `x · M` is `Σk x[k] · M[k][i]` |
| LinAlg.MatrixApply | math.cpp:105-111 | the row vector times the matrix. It has no contract of its own: `LinAlg.ApplyColumn` and `LinAlg.ApplyComponents` state its components, and `LinAlg.ApplyProduct`, `LinAlg.ApplyIdentity`, `ApplyTranslation`, `ApplyScaling` and `ApplyPerspective` state its laws |
| LinAlg.ApplyComponents | math.cpp:105-111 | the four components of `x · M` written out |
| LinAlg.ApplyProduct | math.cpp:81-111 | applying a product is applying its factors in turn: `x · (A · B) == (x · A) · B` |
| LinAlg.SetIdentity | math.cpp:113-119 | the array holds the identity matrix |
| LinAlg.ApplyIdentity | math.cpp:105-119 | `x · I == x` |
| LinAlg.ProductIdentity | math.cpp:113-119 | the identity is a two-sided unit of the product |
| LinAlg.SetZero | math.cpp:121-126 | all 16 entries are 0 |
| LinAlg.ProductZero | math.cpp:121-126 | a product with the zero matrix on either side is zero |
| LinAlg.SetTranslate | math.cpp:129-134 | the array holds the translation matrix |
| LinAlg.ApplyTranslation | math.cpp:129-134 | a point with `w == 1` is moved by `(x, y, z)` and keeps `w`; a direction with `w == 0` is unchanged |
| LinAlg.SetScale | math.cpp:137-142 | the array holds the scaling matrix |
| LinAlg.ApplyScaling | math.cpp:137-142 | the components are multiplied componentwise and `w` is kept |
| LinAlg.SetPerspective | math.cpp:198-206 | the array holds the perspective matrix for `fax`, `aspect`, `zn`, `zf` |
| LinAlg.ApplyPerspective | math.cpp:198-206 | clip `w` is the input `z`; `x` and `y` are scaled by `fax / aspect` and `fax`; a point (`w == 1`) on the near plane gets clip `z == 0`, and one on the far plane gets clip `z == zf`, its clip `w`; this holds for every `fax` |
| LinAlg.DepthPlanes | math.cpp:202-203 | the depth row maps `zn` to 0 and `zf` to `zf` |
| Geometry.Transform.constructor | transform.cpp:11-19 | world and view are the identity; projection is the perspective matrix with aspect `width / height`, near 1 and far 500; the screen size is stored; and `transform` is `world · view · projection` |
| Geometry.Transform.Update | transform.cpp:4-8 | `transform` becomes `world · view · projection` of the current matrices; only `transform` changes |
| Geometry.ApplyComposes | transform.cpp:4-8 | applying the combined transform is applying world, view and projection in turn |
| Geometry.Transform.Apply | transform.cpp:22-24 | the clip-space image of a point under the `transform` matrix. It has no contract of its own; `Geometry.Transform.ApplyInTurn` states its meaning |
| Geometry.Transform.ApplyInTurn | transform.cpp:4-24 | once `transform` holds world · view · projection, `transform_apply` equals applying world, view and projection in turn |
| Geometry.CheckCvv | transform.cpp:27-37 | the mask is 0 exactly when `0 <= z <= w`, `-w <= x <= w` and `-w <= y <= w`; each bit 1, 2, 4, 8, 16, 32 is set exactly when its own bound is violated; the mask is below 64 |
| Geometry.CvvFrontOrOrigin | transform.cpp:27-36 | a clip-space point that passes the test has `w > 0`, or is the origin `(0, 0, 0, 0)` |
| Geometry.Homogenize | transform.cpp:40-46 | output `w == 1`; output `z · w == z`, so output `z` is `z / w`; clip `x = -w` maps to 0 and `x = w` to the screen width; `y` is flipped, so clip `y = w` maps to 0 and `y = -w` to the screen height |
| Geometry.HomogenizeOnScreen | transform.cpp:27-46 | a point that passes the clip test with `w > 0` lands in `[0, width] × [0, height]` with depth in [0, 1] |
| Geometry.RhwInit | transform.cpp:48-56 | `pos` is unchanged; `rhw · pos.w == 1`; `u`, `v`, `r`, `g`, `b` times `pos.w` give back the inputs |
| Geometry.RhwInitRecovers | transform.cpp:48-56 | `1 / rhw` is `pos.w` again, and every attribute times `1 / rhw` is the original |
| Geometry.VertexInterp | transform.cpp:58-66 | `pos.w` is 1; `t = 0` gives `x1` and `t = 1` gives `x2`, except that `pos.w` is forced to 1 |
| Geometry.VertexDivision | transform.cpp:68-80 | the per-step increment `(x2 - x1) / w` of every field. It has no contract of its own; `Geometry.DivisionAddRoundTrip` states that `w` such steps from `x1` reach `x2` |
| Geometry.VertexAdd | transform.cpp:82-93 | the fieldwise sum. It has no contract of its own; `Geometry.AdvanceIsAffine` states that `n` additions add `n` times the step |
| Geometry.AdvanceIsAffine | transform.cpp:82-93 | `n` successive `vertex_add`s of `step` add `n · step` to every field |
| Geometry.DivisionAddRoundTrip | transform.cpp:68-93 | adding the step of `vertex_division(x1, x2, n)` to `x1` `n` times gives exactly `x2` |
| Geometry.SortByY | transform.cpp:101-103 | the three swaps leave the vertices ordered by `y`; they are a permutation of the inputs; the first, middle and last `y` are the minimum, the median and the maximum; distinct inputs stay distinct |
| Geometry.InitTriangle | transform.cpp:96-159 | the result counts 0 to 2 trapezoids: 0 exactly when all `y` or all `x` are equal, 2 exactly when the three `y` are distinct and not all `x` are equal, and otherwise 1 (flat top or flat bottom). Every trapezoid has `top < bottom`, and both of its edges run downward between input vertices and span it. The first top is the minimum `y` and the last bottom the maximum `y`. With two trapezoids they meet at the median of the three `y` (`Mid3`). The left edge is never right of the right edge at the split row, in either trapezoid, or at both ends of a single trapezoid. With two trapezoids, both edges of the upper one leave the top vertex, both edges of the lower one reach the bottom vertex, and the two share one side, the long edge. For three distinct vertices the two edges of every trapezoid are different sides |
| Geometry.SideTest | transform.cpp:134-137 | the source's test, extending `p1`-`p2` down to the height of `p3` and comparing with `p3.x`, holds exactly when the middle vertex lies on or left of the long edge at its own height, and when it fails the vertex lies right of it; at that height both short edges are at the middle vertex's `x` |
| Geometry.EdgeInterp | transform.cpp:162-169 | only the current points `left.v` and `right.v` change; on a non-horizontal edge the current point has `pos.y == y` |
| Geometry.EdgeInterpRepeat | transform.cpp:162-169 | interpolating an already interpolated trapezoid gives the same result as interpolating the original |
| Geometry.EdgeInterpBetween | transform.cpp:162-169 | on a row the trapezoid spans, each current point's `x` lies between its edge's end points |
| Geometry.InitScanLine | transform.cpp:172-180 | `y` is the row and `v` is the left current point; `x` is the left `x` rounded by `(int)(x + 0.5)`; the width is 0 when left `x >= ` right `x`, and otherwise reaches the rounded right `x`; the width is never negative |
| Geometry.ScanlineReachesRight | transform.cpp:172-180 | when the span is a whole number `n` of pixels, `n` steps take the scanline vertex from the left point to the right point |
| Render.UnsignedBoundsCheck | device.cpp:77-81 | the single unsigned comparison `(UINT32)x < (UINT32)n` is equivalent to `0 <= x < n` |
| Render.PackRgb | device.cpp:173 | the packed pixel is at most `0xFFFFFF`, and each channel can be read back by shift and mask |
| Render.GrayIsRepeated | device.cpp:66 | a grey level packed three times is `cc · 0x10101` |
| Render.Level | device.cpp:65 | the clear grey level lies in [0, 230]; it is 230 on the top row and 0 on the bottom row |
| Render.LevelMonotone | device.cpp:65 | the grey level never increases down the screen |
| Render.Device.constructor | device.cpp:4-36 | both buffers are new, with `height` rows of `width` cells; the texture is 2×2 of zeros; `max_u = max_v = 1`; background is `0xc0c0c0`, foreground 0, render state WIREFRAME; the transform is set up as by `transform_init` |
| Render.Device.SetTexture | device.cpp:48-58 | rows `j < h` of the table now hold `bits[j]` and the other rows are kept; `tex_width = w`, `tex_height = h`, `max_u = w - 1`, `max_v = h - 1`; nothing else changes |
| Render.Device.PutPixel | device.cpp:77-81 | exactly the cell `(x, y)` is set to `color` when it is on screen; otherwise nothing changes |
| Render.Device.Clear | device.cpp:61-74 | every framebuffer cell of row `y` holds the background (mode 0) or the packed grey level of row `y`; every depth cell is 0 |
| Render.Device.ClearFrame | device.cpp:62-69 | the framebuffer part of the clear |
| Render.Device.ClearDepth | device.cpp:70-73 | the depth-buffer part of the clear |
| Render.ClearColor | device.cpp:62-67 | mode 0 gives the background; any other mode gives a grey pixel whose three channels all equal the row's level, black on the bottom row |
| Render.LineEndpoints | device.cpp:84-129 | both end points are plotted, in every branch |
| Render.LineOf | device.cpp:84-129 | the pixels of `device_draw_line`, under either loop bound. It has no contract of its own; `Render.LineEndpoints`, `Render.LineAxisAligned`, `Render.LineInBox` and `Render.LineFootprint` state its properties |
| Render.LinePointsAsWritten | device.cpp:102-127 | the line with the source's `x <= x2` / `y <= y2` loop bounds. It has no contract of its own; `Render.DiagonalOvershoot` and `Render.LineFootprint` state how it differs from `LinePoints` |
| Render.LinePoints | device.cpp:84-129 | the line with the error-term loops stopping before the end point. It has no contract of its own; `Render.LineInBox` states that it stays in the end points' box |
| Render.LineAxisAligned | device.cpp:86-98 | a vertical line is exactly the column between its end points, and a horizontal line exactly the row; equal end points give the single pixel |
| Render.RunMembers | device.cpp:89-98 | the vertical and horizontal loops plot exactly the half-open segment before the end point |
| Render.WalkBounded | device.cpp:102-127 | the error-term walk never leaves the bounding box of the line |
| Render.LineInBox | device.cpp:84-129 | every pixel of the line (loops stopping before the end point) lies in the end points' bounding box |
| Render.DiagonalOvershoot | device.cpp:102-114 | with the source's `x <= x2`, the diagonal (0, 0) to (1, 1) plots (1, 2), outside the bounding box |
| Render.LineFootprint | device.cpp:102-127 | the source's loop bounds change a line only when its slope is exactly ±1 (with distinct end points), and there only by the one pixel one row past the end point with the larger x; every other line equals the corrected `LinePoints` |
| Render.WalkExtend | device.cpp:103-112 | running the error-term loop one column further adds exactly that column, entered with the cross coordinate and error term the shorter loop leaves |
| Render.WalkEndAt | device.cpp:103-112 | after all columns of a line the cross coordinate has made all `dy` steps and the error term is back at 0 |
| Render.WalkPastEnd | device.cpp:103-113 | the extra loop iteration through the end column adds only the end point, plus one pixel beyond it when `dx == dy` |
| Render.Device.DrawLine | device.cpp:84-129 | the framebuffer changes exactly at the on-screen pixels of `LinePoints`, which receive `c` |
| Render.Device.PlotRun | device.cpp:89-98 | the vertical or horizontal loop paints exactly its run |
| Render.Device.PlotWalk | device.cpp:100-127 | the error-term loop paints exactly its walk; the loop invariant keeps the error term in `[0, da)` and the loop terminates |
| Render.Device.PlotColumn | device.cpp:105-111 | one step of the error-term loop paints its one or two pixels, adds `db` to the error term and, when it reaches `da`, subtracts `da` and steps across; the error term stays in `[0, da)` |
| Render.TexelIndex | device.cpp:132-141 | the index is always in `[0, size - 1]`; while `t · max` lies on the texture it is the nearest texel, within half a texel |
| Render.Device.TextureRead | device.cpp:132-141 | the result is always one of the texels inside `tex_width × tex_height` |
| Render.Device.TextureReadCorners | device.cpp:132-141 | with the scale factors `device_set_texture` installs, (0, 0) reads the first texel and (1, 1) the last |
| Render.Channel | device.cpp:163-172 | a channel is in [0, 255]; for intensities in [0, 1] it is the truncated `c · 255`; below it saturates to 0 and above to 255 |
| Render.VertexColor | device.cpp:161-173 | colour mode yields a pixel at most `0xFFFFFF` whose channels are the perspective-corrected, clamped intensities |
| Render.CornerColor | device.cpp:161-173 | at a vertex prepared by `vertex_rhw_init`, colour mode yields the vertex's own colour |
| Render.Device.ShadePixel | device.cpp:161-180 | with neither COLOR nor TEXTURE the pixel keeps its colour; with TEXTURE the texel wins, even when COLOR is set; with COLOR alone it is the packed vertex colour |
| Render.Device.DrawScanline | device.cpp:149-186 | only row `s.y` changes, and only in columns `[x, x + w)` on screen. At column `px` the vertex has been advanced `px - x` steps, one per visited pixel. A cell passing the depth test `rhw >= z` takes depth `rhw` and the shaded colour; every other cell is kept. Depth never decreases |
| Render.Device.ShadeCell | device.cpp:158-181 | one on-screen cell: when `rhw >= z` it takes depth `rhw` and the shaded colour, otherwise both buffers keep it; no other cell changes |
| Render.RowScan | device.cpp:196-198 | the scanline drawn on row `j` starts at the rounded x where the left edge crosses height `j + 0.5`; it ends at the rounded x where the right edge crosses it when that lies further right, and is empty otherwise |
| Render.Device.RenderTrap | device.cpp:189-203 | exactly the rows `trunc(top + 0.5) <= j < trunc(bottom + 0.5)` that are on the screen are drawn, each by its own scanline; the other rows are kept; depth never decreases |
| Render.Device.WireframeOnScreen | device.cpp:206-256 | a triangle that passes the clip test, in front of the eye, has its whole wireframe (corrected lines) within `[0, width] × [0, height]` |
| Render.Device.DrawPrimitive | device.cpp:206-256 | a triangle with any vertex outside the view volume changes nothing; without TEXTURE or COLOR the depth buffer is kept; with WIREFRAME alone and every clip `w` positive, exactly the three corrected edges are painted in the foreground colour; with no flag set nothing changes; depth never decreases |
| Render.Device.Fill | device.cpp:228-249 | the fill step never decreases the depth buffer |
| Render.Device.Outline | device.cpp:251-255 | the wireframe step paints exactly the three corrected lines p1-p2, p1-p3 and p3-p2 in the foreground colour |

## Left out

- The Win32 window, the DIB section, presentation and the message pump are not modelled, and neither is the demo frame loop. They are operating-system calls and scene glue.
- The memory carving of `device_init` over a single `malloc`, and `device_destroy`, are not modelled. The rows are the arrays of `Device`; an external framebuffer pointer `fb` is not supported.
- The texture rows set up by `device_init` are 16 bytes in memory, of which the 2×2 texture uses 2 texels; the model stores those rows as 2 zero texels.
- The 1022 texture rows `device_init` leaves unset are empty sequences in the model.
- `device_set_texture` stores row pointers at a byte `pitch` into shared memory. The model copies rows from a sequence of rows, so aliasing between the texture and the caller's buffer is not modelled.
- `vector_length`, `vector_normalize`, `matrix_set_rotate`, `matrix_set_lookat`, and the demo scene (`draw_plane`, `draw_box`, `camera_at_zero`, `init_texture`) are not modelled. They need square roots and trigonometry.
- The `tan` in `matrix_set_perspective` is not modelled. `LinAlg.SetPerspective` takes `fax = 1 / tan(fovy / 2)` as its parameter instead of the field of view.
- Geometry.Transform.constructor: takes `fax` as a parameter. `transform_init` fixes the field of view at π/2, which makes `fax` the float result of `1 / tan(π/4)`, close to 1; the model does not fix it.
- IEEE-754 rounding is not modelled: floats are reals. Division by zero returns 0 in `Div` and `Recip`, where IEEE arithmetic yields infinities or NaN. The only clip-space point with `w == 0` that passes the clip test is the origin (`Geometry.CvvFrontOrOrigin`); `Render.Device.DrawPrimitive` claims nothing about the outline of a triangle with such a vertex, where the C code would convert NaN to `int`.
- The in-place struct updates of `vertex_rhw_init`, `vertex_add` and `trapezoid_edge_interp` are functions from the old value to the new one.
- `device_render_trap` rewrites `trap->left.v` and `right.v` row by row. The model does not keep the rewritten trapezoid, which nothing after the call reads. `Geometry.EdgeInterpRepeat` shows that interpolating the original trapezoid gives the same rows.
- The `scanline` record updated inside `device_draw_scanline` is not returned. Its only effect after the call is on memory that is discarded.
- `trapezoid_init_triangle` writes its trapezoids into the caller's array. The model returns the valid ones as a sequence, and leaves out the initial current points of the edges, which every reader recomputes.
- Render.Device.Fill: states only that depth never decreases. The per-row effect of each trapezoid is stated by `RenderTrap`, but the two calls are not composed into one postcondition.
- Render.Device.DrawPrimitive: when TEXTURE or COLOR is set, its contract does not describe the filled pixels beyond the depth-buffer monotonicity; see `Fill` and `RenderTrap`.
- Render.Device.Clear: requires `height != 1`. In C the divisor `height - 1` is evaluated for every mode, so `height == 1` divides by zero.
- Render.Device.DrawLine: models the corrected loop bounds; see Findings. On a line of slope exactly ±1 the source also paints the pixel one row past the end point with the larger x (`Render.LineFootprint`), which the model does not paint.
- Render.Device.PlotWalk: stops the error-term loop before the end column or row, where the source's `x <= x2` / `y <= y2` runs through it; see Findings.
- Render.Device.Outline: draws its three edges with the corrected `DrawLine`, so the extra diagonal pixel of the source is not painted.
- Render.Device.WireframeOnScreen: holds for the corrected lines. The source's extra pixel on an exact diagonal can lie one row outside `[0, height]`.
- Render.Device.DrawPrimitive: its wireframe postcondition is about the corrected lines, and is stated only when every vertex has clip `w > 0`.

## Findings

| source | as written | input that shows it | evidently intended | confidence | as-written member | corrected member |
|---|---|---|---|---|---|---|
| device.cpp:102-127 | the x-major loop runs `for (x = x1; x <= x2; x++)`, through the end column. When `dx == dy` the error term reaches `dx` again in that last column, so the loop steps y once more and plots one pixel past the end point. For `dx > dy`, and in the y-major loop (`dx < dy`), the extra iteration plots only the end point again (`Render.LineFootprint`) | `(x1, y1) = (0, 0)`, `(x2, y2) = (1, 1)` plots (1, 2) | the loops stop before the end point, which is plotted afterwards; every pixel lies in the end points' bounding box | not executed | Render.LinePointsAsWritten, Render.DiagonalOvershoot, Render.LineFootprint | Render.LinePoints, Render.LineInBox, Render.Device.DrawLine, Render.Device.PlotWalk, Render.Device.Outline, Render.Device.WireframeOnScreen, Render.Device.DrawPrimitive |
