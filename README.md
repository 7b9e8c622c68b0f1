# CoordinateSkin, modelled in Dafny

`CoordinateSkin` is a renderer skin that draws a coordinate grid for a 2D stage.
It draws the X and Y axes, gridlines every 100 and every 20 units, and numeric labels on the axes.
It draws onto an offscreen canvas and keeps the result as one WebGL texture.
The texture is rebuilt only while a dirty flag is set.

This model has two parts:

- **Grid geometry** (`grid_geometry.dfy`, module `GridGeometry`).
  - The main axis is a pure function.
  - The grid-tier builder is a method with the source's two `while` loops.
    It is proved equal to a reference definition, `GridAxis`, which gives the tier index by index.
  - Lemmas about `GridAxis` state the line positions, the strict loop bound, the segment count, the pair ordering, the label sign convention and the unlabelled variant.
- **Skin state and texture cache** (`coordinate_skin.dfy`, module `CoordinateSkins`).
  - The class `CoordinateSkin` has the source's fields: size, rotation centre, font size, dirty flag and texture.
  - Its methods are the constructor, `_setCanvasSize`, the `fontSize` setter, `_render`, `getTexture` and `dispose`.
  - Ghost counters record renders, texture allocations and uploads.
  - The GL context (`web_gl.dfy`, module `WebGl`) is a small class.
    It hands out fresh integer handles and logs every deletion.
  - `Option` lives in `wrappers.dfy`.

Representation choices:

- Sizes are whole numbers (`nat`), so `Math.ceil` of a size is the size itself.
- Grid coordinates are `int`.
- The rotation centre is `real`, because `width / 2` can be a half.
- Line widths are exact `real`s (rationals).
  The doubled main-axis width (`× 2`) and the reduced minor-tier width (`× 0.7`) are exact products, not floating-point ones.
- The label font size is a `real`, since the setter accepts any number.
- Drawing (`_drawLine`, `_drawText`) is modelled only as placing a point at the rotation centre plus the offset (`Place`, `DrawLine`, `DrawText`).

Three behaviours of the code that the model keeps as written:

- The `fontSize` setter does not mark the texture dirty.
  Neither does `_setCanvasSize`.
  So once a texture exists, a font-size change is not redrawn until the flag is set some other way.
  `DefaultStageLifecycle` shows this: after `SetFontSize(20)`, the canvas still carries font size 14.
- Using the skin after `dispose` is not rejected by the code.
  A clean skin just returns the (now absent) texture.
  Only a dirty skin would dereference the dropped canvas, so `GetTexture` requires `textureDirty ==> hasCanvas`.
  The source's own doc comment on `dispose` asks callers not to use the object afterwards.
- For a stage with zero width or height, the canvas is 0 pixels in that direction.
  The pixel readback (`getImageData`) then raises an error, which the HTML canvas standard requires for a zero-sized region.
  By then the dirty flag is already cleared, so no texture is ever allocated and every later request returns none.
  `GetTexture` models this as the outcome `ReadbackFailed`; `ZeroWidthStage` shows the sequence.

## Model

| member | source | states |
|---|---|---|
| GridGeometry.BuildGridAxis | src/CoordinateSkin.js:246-309 | the two push loops return exactly the reference tier `GridAxis` (all vertical pairs, then all horizontal pairs, labels only when asked for, width reduced to 0.7 without labels); requires a positive interval |
| GridGeometry.StepCountExact | src/CoordinateSkin.js:258-296 | strict loop bound: for every k ≥ 1, k·interval < max exactly when k ≤ StepCount, where StepCount counts the multiples of the interval strictly below max |
| GridGeometry.StepCountClosedForm | src/CoordinateSkin.js:258-296 | the number of visited multiples is floor((max-1)/interval) for a positive max, and 0 otherwise |
| GridGeometry.VerticalStep | src/CoordinateSkin.js:258-276 | one pass of the first loop appends the pair of vertical lines at ±stepX and the labels stepX at (stepX,0) and -stepX at (-stepX,0); stepX is a visited multiple and advances by the interval |
| GridGeometry.VerticalDone | src/CoordinateSkin.js:258 | when stepX reaches maxX, every vertical line and X label has been appended |
| GridGeometry.HorizontalStep | src/CoordinateSkin.js:278-296 | one pass of the second loop appends the pair of horizontal lines at ±stepY and the labels -stepY at (0,stepY) and stepY at (0,-stepY); stepY is a visited multiple and advances by the interval |
| GridGeometry.HorizontalDone | src/CoordinateSkin.js:278 | when stepY reaches maxY, every horizontal line and Y label has been appended |
| GridGeometry.GridSegmentCount | src/CoordinateSkin.js:258-296 | the tier has 2·StepCount(maxX) + 2·StepCount(maxY) segments; when the interval is at least maxX and maxY, both segments and labels are empty |
| GridGeometry.VerticalLinePositions | src/CoordinateSkin.js:258-276 | the j-th vertical line is the full-height line (maxY to -maxY) at x = ±(j/2+1)·interval, with 0 < (j/2+1)·interval < maxX |
| GridGeometry.HorizontalLinePositions | src/CoordinateSkin.js:278-296 | the j-th horizontal line is the full-width line (maxX to -maxX) at y = ±(j/2+1)·interval, with 0 < (j/2+1)·interval < maxY |
| GridGeometry.GridLinePositions | src/CoordinateSkin.js:252-299 | in the returned list, the first 2·StepCount(maxX) segments are those vertical lines and the rest are those horizontal lines, so no line's offset from the rotation centre reaches the logical size (the bound is on the offset, not on the canvas: with the centre at (w/2, h/2), lines at offsets from w/2 up to w fall outside the canvas, e.g. ±300 and ±400 on a 480-wide stage) |
| GridGeometry.GridLinesComplete | src/CoordinateSkin.js:258-296 | for every k ≥ 1 with k·interval < maxX, both vertical lines at ±k·interval are present; likewise both horizontal lines for k·interval < maxY |
| GridGeometry.GridOffAxes | src/CoordinateSkin.js:258-296 | on a stage with positive width and height, no segment of a grid tier lies on the X or Y axis (vertical lines at x = ±k·interval ≠ 0 spanning ±maxY, horizontal lines at y ≠ 0 spanning ±maxX) |
| GridGeometry.GridPairOrdering | src/CoordinateSkin.js:255-296 | segments come in pairs +step then -step with step > 0; each pair's step is the previous one's plus the interval; vertical pairs precede horizontal pairs |
| GridGeometry.GridLabelsFollowSegments | src/CoordinateSkin.js:268-293 | with labels, there is one label per segment in the same order; a vertical line at x is labelled x at (x,0); a horizontal line at y is labelled -y at (0,y) (sign flipped) |
| GridGeometry.UnlabelledGrid | src/CoordinateSkin.js:298-308 | without labels, the label list is empty, the segments equal the labelled call's, the width is 0.7 of the base (the labelled call keeps the base), and stroke colour and point style are unchanged |
| GridGeometry.DefaultStageGrid | src/CoordinateSkin.js:255-296 | for 480×360: 4 and 3 visited multiples of 100, 23 and 17 of 20; X labels ±100…±400 and Y labels ±100…±300 with the sign convention, in order |
| WebGl.Context.CreateTexture | src/CoordinateSkin.js:350 | allocation returns a handle distinct from every live one and adds it to the live set |
| WebGl.Context.DeleteTexture | src/CoordinateSkin.js:102 | deletion removes the handle from the live set and appends it to the deletion log |
| CoordinateSkins.RenderedTierOrder | src/CoordinateSkin.js:319-325 | a render draws three tiers in order: the main axis (single `0` label, double width), the labelled 100 tier (one label per segment, base width), the unlabelled 20 tier (no labels, 0.7 width) |
| CoordinateSkins.MainAxisAlone | src/CoordinateSkin.js:208-238 | `_getMainAxis` against the two grid tiers of a render: the main tier's two segments lie on the X and Y axes, and on a stage with positive width and height no line of the 100 or 20 tier touches either axis; for a positive base width the main tier is the widest, then the labelled tier, then the unlabelled one |
| CoordinateSkins.OriginAtCanvasCentre | src/CoordinateSkin.js:151-166 | `_drawLine` and `_drawText`, modelled by `Place`, `DrawLine` and `DrawText` (point = rotation centre + offset): for a skin after a render, the drawn `0` label sits at the centre of its canvas, the drawn X axis runs along the canvas's middle row and the drawn Y axis along its middle column |
| CoordinateSkins.CoordinateSkin.constructor | src/CoordinateSkin.js:46-83 | a new skin is dirty, holds no texture, has font size 14 and the default style, and its size and rotation centre come from the native size |
| CoordinateSkins.CoordinateSkin.SetCanvasSize | src/CoordinateSkin.js:123-132 | stores the size and sets the rotation centre to (w/2, h/2); nothing else changes, in particular not the dirty flag |
| CoordinateSkins.CoordinateSkin.SetFontSize | src/CoordinateSkin.js:92-94 | changes the font size only; the dirty flag is untouched |
| CoordinateSkins.CoordinateSkin.Render | src/CoordinateSkin.js:311-328 | sets the canvas to the size (ceiling of an integral size), draws the tiers main, (100, labelled), (20, unlabelled) with the current font size, and counts one render |
| CoordinateSkins.CoordinateSkin.GetTexture | src/CoordinateSkin.js:330-357 | when dirty: exactly one render and the flag cleared; then, for a canvas with zero width or height, the readback fails with no allocation and no upload; otherwise exactly one upload, a fresh handle allocated only if none was held, else the same handle kept; when clean: no state change and the held handle returned; the skin invariant (at most one allocation, a clean skin without a texture has had a failed readback) is preserved |
| CoordinateSkins.CoordinateSkin.Dispose | src/CoordinateSkin.js:100-107 | a held texture is deleted once and forgotten; no deletion when none is held; the canvas is dropped |
| CoordinateSkins.DefaultStageLifecycle | src/CoordinateSkin.js:330-357 | for 480×360: centre (240,180); the first request yields a handle; a second request after a font change returns the same handle without rendering, so the old font size stays; disposing twice deletes the texture exactly once |
| CoordinateSkins.ZeroWidthStage | src/CoordinateSkin.js:336-356 | for a stage of width 0: the first request fails at the readback after the flag is cleared and allocates nothing; the second request returns no texture |

## Left out

- Canvas 2D drawing calls (`beginPath`, `moveTo`, `lineTo`, `stroke`, `fillText`, font, baseline and alignment strings) have no checkable result in Dafny. `_setCtxAttributes` is left out for the same reason. Drawing is modelled only as the offset from the rotation centre.
- Pixel readback (`getImageData`), `twgl.createTexture` options, `document.createElement('canvas')` and `_setTexture` are browser or GPU calls. They become the `WebGl.Context` handle allocator and the ghost upload counter. The pixel data itself is not modelled. Only one readback failure is modelled: the error for a zero-sized canvas.
- `super.dispose()`: the base class `Skin` is not part of this model. The model assumes `Skin` starts with no texture and a zeroed rotation centre. The model's rotation centre has two slots.
- The `renderer` object and `renderer.getNativeSize()` are external. The native size is given to the constructor, and the GL context is passed in.
- The ignored `scale` argument and `_renderedScale` are unused or commented out, so they are left out. So is the commented-out native-size event subscription.
- The `size` getter is not modelled as a separate member; the model reads the `size` field directly.
- The skin keeps a reference to the array it was given (`this._size = canvasSize`). The model copies the value, so that aliasing is not captured.
- Sizes are whole numbers. Fractional sizes, where `Math.ceil` would matter and the grid bounds would be fractional, are not modelled.
- The line widths are exact rationals, not IEEE doubles. The rotation centre is an exact rational too, whatever number format the base class stores it in.
- CoordinateSkins.CoordinateSkin.GetTexture: a skin disposed while still dirty throws a TypeError at src/CoordinateSkin.js:312, because `_render` calls `getContext` on the dropped canvas. The requires `textureDirty ==> hasCanvas` excludes that call, so the model does not capture this error. No deliberate fail-fast check after `dispose` is modelled, because the code has none.
