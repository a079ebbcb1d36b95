# Triangle pipeline of the CPU `Renderer` (rs-cpurenderer, src/gpu_renderer.rs)

This project models the "GPU-style" software renderer of src/gpu_renderer.rs in
Dafny. A `Renderer` owns two attachments: a colour attachment and a depth
attachment. It also holds a camera, a viewport, a shader pair with its
uniforms, the winding and cull policies, and a wireframe switch.
`draw_triangle` takes every complete group of three vertices through these
stages:

- vertex shading;
- the model-view transform;
- face culling;
- projection;
- replacing z by the view-space depth `-w`;
- the perspective divide;
- the viewport transform.

It then either hands each of the three edges to the line rasteriser (wireframe
mode) or walks the triangle's clamped bounding box. At each pixel the walk
computes barycentric weights, the perspective-correct depth
`z = 1 / (α/z0 + β/z1 + γ/z2)` and perspective-correct attributes. It writes
colour and depth only when `z` is in front of the near value and is not below
the stored depth.

The model has four modules:

- `Linear` — vectors, 4x4 matrices, matrix products.
- `Pipeline` — the value level:
  - the per-vertex stages and `Prepare`, one triangle through all of them;
  - the bounding box `Aabb`, exactly as the code computes it, including the
    saturating `as u32` casts;
  - the interpolation `CorrectedAttributes`;
  - the per-pixel body of the fill loop, `FragmentAt`;
  - the wireframe edges and their effect through the line rasteriser
    (`WireframeEdges`, `AfterEdges`);
  - the effect of one primitive and of a whole draw on a single pixel
    (`AfterPrimitive`, `AfterDraw`).
- `GpuRenderer` — class `Renderer`:
  - `array2` attachments that the methods update in place;
  - the configuration fields with their setters and getters;
  - the per-vertex stage loops, run in place on a three-vertex array;
  - the wireframe loop over the three edges;
  - the nested `x`/`y` pixel walk.

  Every method is proved against the `Pipeline` functions. After
  `DrawTriangle`, each pixel equals `AfterDraw` of its old value over the
  prepared primitives.
- `PipelineLemmas` — properties:
  - where the viewport map sends NDC;
  - the bounding box covers the fill rule;
  - the constant-attribute law;
  - depths between the corner depths;
  - identity transforms;
  - unreached pixels are unchanged;
  - the two modes do not interfere;
  - the last passing fragment wins;
  - idempotence of a primitive.

Floating point is modelled by mathematical reals. `f32::MIN` and `f32::MAX`
are exact real constants. `as u32` saturates at 0 and at `u32::MAX` and
truncates in between.

Two details of the code are easy to misread:

- The pixel walk runs `x` in the outer loop and `y` in the inner loop, so it
  goes column by column.
- The viewport's y map sends NDC [-1, 1] onto rows [vp.y + 1, vp.y + vp.h]
  (`ViewportY`, `ViewportRange`). That is one row below the x map's
  convention, which sends NDC [-1, 1] onto columns [vp.x, vp.x + vp.w - 1].

## Model

| member | source | states |
|---|---|---|
| Pipeline.ViewportX | src/gpu_renderer.rs:95-96 | NDC -1 lands on column vp.x and NDC 1 on column vp.x + vp.w - 1 |
| Pipeline.ViewportY | src/gpu_renderer.rs:97-99 | the flipped y map: NDC 1 lands on row vp.y + 1 and NDC -1 on row vp.y + vp.h |
| Pipeline.ShadeVertex | src/gpu_renderer.rs:50-54 | the vertex shader applied to a vertex with the renderer's uniforms and textures (a collaborator, no contract of its own) |
| Pipeline.ModelView | src/gpu_renderer.rs:57-59 | the model-view transform moves the position only; the attributes are carried along |
| Pipeline.Culls | src/gpu_renderer.rs:62-69 | the cull helper consulted on the three view-space corners, the view direction -z and the two policies (a collaborator, no contract of its own) |
| Pipeline.Project | src/gpu_renderer.rs:72-74 | the projection moves the position only, its w being the projection's last row times the position |
| Pipeline.TrueDepth | src/gpu_renderer.rs:83-85 | z becomes -w; x, y, w and the attributes stay |
| Pipeline.PerspectiveDivide | src/gpu_renderer.rs:88-91 | x and y are divided by w (multiplying back by w recovers them); z, w and the attributes stay |
| Pipeline.ViewportMap | src/gpu_renderer.rs:94-100 | x and y go through the viewport maps with their end points pinned; z, w and the attributes stay |
| Pipeline.Prepare | src/gpu_renderer.rs:48-100 | a triangle is dropped exactly when the cull helper rejects its view-space corners; a kept one has every stored depth equal to minus its clip-space w (so nonzero) and keeps the vertex shader's attributes |
| Pipeline.Triangles | src/gpu_renderer.rs:46-48 | a draw forms \|vertices\|/3 primitives, the i-th prepared from vertices 3i, 3i+1, 3i+2, each kept one with nonzero depths |
| Pipeline.TriangleAt | src/gpu_renderer.rs:48 | the i-th group of three consecutive vertices, 3i, 3i+1, 3i+2 (no contract of its own; Triangles states its role) |
| Pipeline.FoldMin | src/gpu_renderer.rs:103-111 | the fold seeded with f32::MAX is a lower bound of the three coordinates and is one of them or the seed |
| Pipeline.FoldMax | src/gpu_renderer.rs:125-133 | the fold seeded with f32::MIN is an upper bound of the three coordinates and is one of them or the seed |
| Pipeline.Ceil | src/gpu_renderer.rs:112 | the rounded-up value is the least integer not below its argument |
| Pipeline.SaturatingU32 | src/gpu_renderer.rs:169-170 | the cast is within u32, gives 0 for negatives and the floor inside the range |
| Pipeline.Aabb | src/gpu_renderer.rs:103-146 | on a canvas at least one pixel wide (high) the upper loop bound is a column (row) of the canvas; a nonempty range starts at or right of the triangle's smallest x (y) and ends at or left of its largest, or at 0 |
| Pipeline.Visited | src/gpu_renderer.rs:169-170 | every visited pixel lies on the canvas |
| Pipeline.InvDepth | src/gpu_renderer.rs:177-179 | at each corner's unit weight, inv_z is the reciprocal of that corner's depth |
| Pipeline.Weights | src/gpu_renderer.rs:171-174 | the barycentric helper consulted on the pixel centre and the three screen-space corners (a collaborator, no contract of its own; FragmentAt states its role) |
| Pipeline.Covers | src/gpu_renderer.rs:175-180 | the helper accepts the pixel and inv_z is nonzero, so z is finite (no contract of its own; FragmentAt states its role) |
| Pipeline.FragDepth | src/gpu_renderer.rs:180 | the fragment depth is nonzero and is the reciprocal of inv_z |
| Pipeline.FragColor | src/gpu_renderer.rs:185-191 | the pixel shader applied to the perspective-corrected attributes at the fragment's depth, with the renderer's uniforms and textures (no contract of its own; FragmentAt states its role) |
| Pipeline.Passes | src/gpu_renderer.rs:182-183 | a fragment that passes the near and depth tests can only overwrite a stored depth in front of the near value |
| Pipeline.CorrectedAttributes | src/gpu_renderer.rs:248-265 | every slot of the four attribute arrays interpolated with the 1/z weights and scaled by z (no contract of its own; ConstantAttributeLaw and CornerIsExact state its properties) |
| Pipeline.FragmentAt | src/gpu_renderer.rs:171-194 | the pixel takes the shaded colour and depth 1/inv_z exactly when the weights are valid, z is finite, z < near and the stored depth is <= z; otherwise it is unchanged; the depth never decreases |
| Pipeline.WireframeEdges | src/gpu_renderer.rs:152-156 | edge k runs from corner k to corner k+1 mod 3, each endpoint with its depth replaced by the reciprocal; consecutive edges share their endpoint |
| Pipeline.ReciprocalDepth | src/gpu_renderer.rs:155-156 | the new depth times the old is 1; x, y, w and the attributes stay |
| Pipeline.LineAt | src/gpu_renderer.rs:158-165 | the line rasteriser's effect on one pixel for one edge, given the pixel shader and its inputs (a collaborator, no contract of its own; RasterizeLine and AfterEdges state its role) |
| Pipeline.AfterEdges | src/gpu_renderer.rs:152-166 | the edges drawn in order; a rasteriser that never lowers depth keeps the depth non-decreasing, and a pixel no edge changes stays as it was |
| Pipeline.AfterPrimitive | src/gpu_renderer.rs:61-198 | a culled triangle leaves the pixel; in wireframe mode the pixel is what its three edges leave; in fill mode a pixel off the walk is unchanged; the depth never decreases in fill mode or with a depth-testing line rasteriser |
| Pipeline.AfterDraw | src/gpu_renderer.rs:46-198 | over a whole draw the stored depth never decreases, in fill mode or with a depth-testing line rasteriser |
| GpuRenderer.ApplyStage | src/gpu_renderer.rs:50-100 | each in-place loop over the three vertices replaces every vertex by the stage applied to it |
| GpuRenderer.Renderer.constructor | src/gpu_renderer.rs:268-280 | fresh W x H attachments, viewport (0, 0, W, H), the given camera, counter-clockwise front faces, no culling, wireframe off |
| GpuRenderer.Renderer.Clear | src/gpu_renderer.rs:24-26 | every colour pixel becomes the given colour |
| GpuRenderer.Renderer.ClearDepth | src/gpu_renderer.rs:210-212 | every depth cell becomes f32::MIN |
| GpuRenderer.Renderer.GetCanvaWidth | src/gpu_renderer.rs:28-30 | the canvas width is the colour attachment's width |
| GpuRenderer.Renderer.GetCanvaHeight | src/gpu_renderer.rs:32-34 | the canvas height is the colour attachment's height |
| GpuRenderer.Renderer.GetShader | src/gpu_renderer.rs:202-204 | returns the current shader |
| GpuRenderer.Renderer.SetShader | src/gpu_renderer.rs:202-204 | a write through the returned borrow replaces the shader and nothing else |
| GpuRenderer.Renderer.GetUniforms | src/gpu_renderer.rs:206-208 | returns the current uniforms |
| GpuRenderer.Renderer.SetUniforms | src/gpu_renderer.rs:206-208 | a write through the returned borrow replaces the uniforms and nothing else |
| GpuRenderer.Renderer.GetCamera | src/gpu_renderer.rs:214-216 | returns the current camera |
| GpuRenderer.Renderer.SetCamera | src/gpu_renderer.rs:218-220 | replaces the camera and nothing else |
| GpuRenderer.Renderer.SetFrontFace | src/gpu_renderer.rs:222-224 | replaces the winding policy and nothing else |
| GpuRenderer.Renderer.GetFrontFace | src/gpu_renderer.rs:226-228 | returns the winding policy |
| GpuRenderer.Renderer.SetFaceCull | src/gpu_renderer.rs:230-232 | replaces the cull policy and nothing else |
| GpuRenderer.Renderer.GetFaceCull | src/gpu_renderer.rs:234-236 | returns the cull policy |
| GpuRenderer.Renderer.EnableFramework | src/gpu_renderer.rs:238-240 | turns wireframe mode on and changes nothing else |
| GpuRenderer.Renderer.DisableFramework | src/gpu_renderer.rs:242-244 | turns wireframe mode off and changes nothing else |
| GpuRenderer.Renderer.FillTriangle | src/gpu_renderer.rs:167-197 | after the walk, every pixel in the clamped box holds FragmentAt of its old value and every other pixel is unchanged |
| GpuRenderer.Renderer.RunStages | src/gpu_renderer.rs:48-100 | the in-place stage loops yield exactly Prepare of the source triangle, stopping after model-view when the triangle is culled |
| GpuRenderer.Renderer.DrawPrimitive | src/gpu_renderer.rs:150-198 | one primitive changes each pixel exactly as AfterPrimitive says: culled leaves it, wireframe draws the three edges in order through the line rasteriser, fill mode runs the walk |
| GpuRenderer.Renderer.RasterizeLine | src/gpu_renderer.rs:158-165 | the call into the line rasteriser for one edge: every pixel takes the colour and depth the rasteriser leaves there |
| GpuRenderer.Renderer.DrawTriangle | src/gpu_renderer.rs:40-200 | every pixel ends as the left fold of the per-primitive effect over the prepared triangles, in order; no depth decreases in fill mode or with a depth-testing line rasteriser; fewer than three vertices change nothing |
| PipelineLemmas.ViewportRange | src/gpu_renderer.rs:94-100 | NDC in [-1, 1] maps into columns [vp.x, vp.x + vp.w - 1] and rows [vp.y + 1, vp.y + vp.h] |
| PipelineLemmas.VisitedCoversBox | src/gpu_renderer.rs:103-170 | every canvas pixel inside the triangle's real bounding box is visited by the walk |
| PipelineLemmas.AabbOnEmptyCanvasReachesOrigin | src/gpu_renderer.rs:125-170 | with the bounds as written, a 0 x 0 canvas still yields the ranges 0..=0 for a triangle reaching the origin |
| PipelineLemmas.ConstantChannel | src/gpu_renderer.rs:248-253 | a scalar channel equal at all three corners interpolates to that value with the depth rebuilt from the same weights, for any nonzero corner depths whose weighted inverse inv_z is nonzero |
| PipelineLemmas.ConstantAttributeLaw | src/gpu_renderer.rs:248-265 | the same for every slot of all four attribute arrays |
| PipelineLemmas.HarmonicMeanOfEqualDepths | src/gpu_renderer.rs:177-180 | weights summing to 1 over three equal depths c give inv_z = 1/c and z = c |
| PipelineLemmas.InvDepthBetween | src/gpu_renderer.rs:177-179 | convex weights over depths in [lo, hi] (lo > 0) give inv_z in [1/hi, 1/lo] |
| PipelineLemmas.DepthBetweenPositiveCorners | src/gpu_renderer.rs:177-180 | convex weights over positive depths in [lo, hi] give z in [lo, hi] |
| PipelineLemmas.DepthBetweenNegativeCorners | src/gpu_renderer.rs:177-180 | convex weights over negative depths in [lo, hi] give a negative inv_z and z in [lo, hi] |
| PipelineLemmas.CornerIsExact | src/gpu_renderer.rs:177-185 | the unit weight on corner k, (1, 0, 0), (0, 1, 0) or (0, 0, 1), reproduces corner k's depth and all of its attributes exactly |
| PipelineLemmas.ModelViewIdentity | src/gpu_renderer.rs:57-59 | identity view and model matrices leave a vertex unchanged |
| PipelineLemmas.ProjectIdentity | src/gpu_renderer.rs:72-74 | an identity projection leaves a vertex unchanged |
| PipelineLemmas.IdentityClip | src/gpu_renderer.rs:50-74 | identity matrices and a pass-through vertex shader give clip position = input position |
| PipelineLemmas.ToScreenUnitW | src/gpu_renderer.rs:83-100 | at w = 1 the post-projection stages store depth -1 and apply the viewport map to x and y directly |
| PipelineLemmas.PrepareFixedClip | src/gpu_renderer.rs:83-100 | a kept triangle already in clip space at w = 1 lands at the viewport images of its x and y |
| PipelineLemmas.IdentityTransformsMapByViewport | src/gpu_renderer.rs:48-100 | with identity matrices, a pass-through shader and w = 1, a triangle the cull helper keeps is kept, and each corner's screen position is the viewport map of its input x, y and its depth is -1 |
| PipelineLemmas.TrailingVerticesIgnored | src/gpu_renderer.rs:46-48 | the draw's primitives equal those of the vertices cut to a multiple of three |
| PipelineLemmas.AfterDrawStep | src/gpu_renderer.rs:46-200 | drawing primitive i after the first i applies it to the pixel those left |
| PipelineLemmas.UnreachedPixelUnchanged | src/gpu_renderer.rs:61-198 | a pixel that no primitive reaches (culled, off its fill walk, or changed by none of its wireframe edges) ends unchanged |
| PipelineLemmas.FewerThanThreeVerticesDrawNothing | src/gpu_renderer.rs:46-48 | fewer than three vertices form no triangle and change no pixel |
| PipelineLemmas.WireframeDrawFillsNothing | src/gpu_renderer.rs:150-167 | in wireframe mode the fill path never runs: the barycentric helper and the near value have no effect on any pixel |
| PipelineLemmas.FillDrawDrawsNoLines | src/gpu_renderer.rs:167-198 | in fill mode the line rasteriser is never called: it has no effect on any pixel |
| PipelineLemmas.FragmentChangedMeansPassed | src/gpu_renderer.rs:175-194 | in fill mode a primitive that changes a pixel reached it, passed all three guards against the stored depth and wrote its fragment's colour and depth |
| PipelineLemmas.LastPassingFragmentWins | src/gpu_renderer.rs:182-193 | in fill mode the final pixel is the original one or the fragment of a primitive k that reached the pixel and passed near and depth tests against the depth stored before it, with no later primitive changing the pixel; never a blend |
| PipelineLemmas.PrimitiveIdempotent | src/gpu_renderer.rs:182-193 | in fill mode, drawing the same primitive twice leaves a pixel as drawing it once |

## Left out

- Floating-point rounding, NaN and infinities: coordinates and depths are reals.
  - An `inv_z` of 0 would give an infinite z in `f32`. That z fails the near test (+inf) or the depth test (-inf), so the model writes nothing there.
  - A clip-space `w` of 0 on a kept triangle is undefined in the code and is a precondition (`Projectable`, `Drawable`).
- The collaborators are parameters of the model, not models of their code:
  - the vertex and pixel shaders are the fields of `Shader`;
  - `should_cull` is `CullFn`;
  - the barycentric helper is `BarycentricFn`, reporting the weights and `is_valid`;
  - the camera is reduced to its view matrix, its projection matrix and its near value.

  The renderer module, the math module, the camera module, the shader module, the texture module and the image module (`ColorAttachment`, `DepthAttachment`) are not part of this model.
- Properties that depend on what those helpers compute are not stated: that a front-facing triangle is culled only under `FaceCull::Front`, and that the coverage test treats the three corners symmetrically.
- `rasterize_line` is a parameter (`LineFn`): for an edge, the pixel shader and its inputs, and one pixel with its stored colour and depth, it gives that pixel's new colour and depth. Which pixels a line covers and how it interpolates are not modelled, and neither is any dependence of one pixel's result on another's.
- GpuRenderer.Renderer.DrawTriangle: promises non-decreasing depth in fill mode unconditionally, but in wireframe mode only for a line rasteriser that never lowers a stored depth (`LinesNeverLowerDepth`), since the rasteriser's depth test is not part of this model.
- GpuRenderer.Renderer.FillTriangle: returns before the walk on a canvas with no column or no row. The code as written enters the walk at pixel (0, 0) there; see "## Findings".
- LastPassingFragmentWins: stated for fill mode only; in wireframe mode a pixel ends as the line rasteriser leaves it, and this model says nothing about what that is.
- PrimitiveIdempotent: stated for fill mode only, because drawing an edge twice through an arbitrary line rasteriser need not be idempotent.
- ModelView: does not state that the position is `view * (model * p)` in that association; the product is formed as in the code, and associativity of the matrix product is not proved.
- `get_rendered_image` and the byte layout of the colour attachment: colours are kept as `Vec4` values.
- The initial contents of fresh attachments: the constructor leaves them arbitrary.
- `Default::default()` for the shader and the uniforms: they are passed to the constructor.
- `MAX_ATTRIBUTES_NUM`: it is an unspecified constant `SLOTS`, on which no property depends.
- `get_shader`, `get_uniforms`, `get_camera` return mutable borrows. They are modelled as getters, plus `SetShader` and `SetUniforms` for a write through the borrow. A field-by-field mutation through a borrow is not modelled.
- src/lib.rs only re-exports modules and is not part of this model.

## Findings

| source | as written | input that shows it | evidently intended | confidence | as-written member | corrected member |
|---|---|---|---|---|---|---|
| src/gpu_renderer.rs:135, 146, 169-170 | the upper loop bound is `min(max, width as f32 - 1.0) as u32`; on a zero-width (zero-height) canvas `-1.0 as u32` saturates to 0, so `x in 0..=0` still runs column 0 | `Renderer::new(0, 0, camera)` and a triangle whose screen-space min x and min y are at most 0 | no pixel is visited on a canvas without columns or rows | low, not executed; whether the attachment accessors then panic is outside this model | PipelineLemmas.AabbOnEmptyCanvasReachesOrigin | Pipeline.Visited |
