/** The value-level part of the triangle pipeline of `Renderer` (src/gpu_renderer.rs):
    the per-vertex stages, the screen-space bounding box, perspective-correct
    interpolation, the per-pixel depth test, and the effect of a whole draw on one
    pixel. The imperative renderer in module GpuRenderer is proved against these. */
module Pipeline {
  import opened Linear

  /** `f32::MAX` and `f32::MIN`, exactly. */
  const F32_MAX: real := 340282346638528859811704183484516925440.0
  const F32_MIN: real := -340282346638528859811704183484516925440.0

  const U32_MAX: nat := 0xFFFF_FFFF

  /** The uniform environment and the texture storage are only passed through to
      the shaders, so the pipeline never looks inside them. */
  type Uniforms
  type TextureStorage

  /** Number of slots in each attribute array (a constant of the shader module,
      whose value the pipeline never depends on). */
  const SLOTS: nat

  datatype AttributeArrays = AttributeArrays(
    float: seq<real>, vec2: seq<Vec2>, vec3: seq<Vec3>, vec4: seq<Vec4>)

  /** Four parallel fixed-size arrays of user-defined channels. */
  type Attributes = a: AttributeArrays
    | |a.float| == SLOTS && |a.vec2| == SLOTS && |a.vec3| == SLOTS && |a.vec4| == SLOTS
    witness AttributeArrays(seq(SLOTS, _ => 0.0), seq(SLOTS, _ => Vec2(0.0, 0.0)),
                            seq(SLOTS, _ => Vec3(0.0, 0.0, 0.0)), seq(SLOTS, _ => Vec4(0.0, 0.0, 0.0, 0.0)))

  datatype Vertex = Vertex(position: Vec4, attributes: Attributes)

  datatype Triangle = Triangle(v0: Vertex, v1: Vertex, v2: Vertex)

  datatype Viewport = Viewport(x: int, y: int, w: nat, h: nat)

  datatype FrontFace = CCW | CW

  datatype FaceCull = None | Front | Back

  /** The near plane is the only part of the frustum the fill path reads besides
      its projection matrix. */
  datatype Camera = Camera(view: Mat4, projection: Mat4, near: real)

  type PixelShader = (Attributes, Uniforms, TextureStorage) -> Vec4

  datatype Shader = Shader(
    vertex: (Vertex, Uniforms, TextureStorage) -> Vertex,
    pixel: PixelShader)

  /** What the barycentric helper reports for a pixel centre. */
  datatype Barycentric = Barycentric(alpha: real, beta: real, gamma: real, valid: bool)

  /** The barycentric helper: pixel centre, then the three projected corners. */
  type BarycentricFn = (Vec2, Vec2, Vec2, Vec2) -> Barycentric

  /** The culling decision: the three view-space corners, the view direction,
      the winding policy and the cull policy. */
  type CullFn = (Vec3, Vec3, Vec3, Vec3, FrontFace, FaceCull) -> bool

  /** The line rasteriser, seen from one pixel: given an edge's two endpoints,
      the pixel shader with its inputs, and a pixel of the canvas with its
      current colour and depth, the colour and depth that pixel holds after the
      edge is drawn. */
  type LineFn = (Vertex, Vertex, PixelShader, Uniforms, TextureStorage, nat, nat, Pixel) -> Pixel

  /** Everything one `draw_triangle` call depends on: the renderer's configuration
      and attachment size, the call's arguments, and the collaborators it calls. */
  datatype Env = Env(
    camera: Camera, viewport: Viewport, shader: Shader, uniforms: Uniforms,
    frontFace: FrontFace, cull: FaceCull, wireframe: bool, width: nat, height: nat,
    model: Mat4, textures: TextureStorage, shouldCull: CullFn, barycentric: BarycentricFn,
    line: LineFn)

  /** The colour and depth stored at one pixel. */
  datatype Pixel = Pixel(color: Vec4, depth: real)

  // ---------------------------------------------------------------------------
  // Per-vertex stages

  function ShadeVertex(env: Env, v: Vertex): Vertex {
    env.shader.vertex(v, env.uniforms, env.textures)
  }

  /** The position goes through `view * model`; the attributes are carried
      along untouched. */
  function ModelView(view: Mat4, model: Mat4, v: Vertex): (r: Vertex)
    ensures r.attributes == v.attributes
  {
    v.(position := MulVec(Mul(view, model), v.position))
  }

  function Project(projection: Mat4, v: Vertex): (r: Vertex)
    ensures r.attributes == v.attributes
    ensures r.position.w == Dot(projection.r3, v.position)
  {
    v.(position := MulVec(projection, v.position))
  }

  /** Replaces the clip-space z by the view-space depth `-w`; nothing else changes. */
  function TrueDepth(v: Vertex): (r: Vertex)
    ensures r.position.z == -v.position.w
    ensures r.position.x == v.position.x && r.position.y == v.position.y && r.position.w == v.position.w
    ensures r.attributes == v.attributes
  {
    v.(position := v.position.(z := -v.position.w))
  }

  /** Divides x and y (only) by w: multiplying back by w recovers them. */
  function PerspectiveDivide(v: Vertex): (r: Vertex)
    requires v.position.w != 0.0
    ensures r.position.x * v.position.w == v.position.x && r.position.y * v.position.w == v.position.y
    ensures r.position.z == v.position.z && r.position.w == v.position.w
    ensures r.attributes == v.attributes
  {
    v.(position := v.position.(x := v.position.x / v.position.w, y := v.position.y / v.position.w))
  }

  /** The x half of the viewport transform. */
  function ViewportX(vp: Viewport, ndc: real): (sx: real)
    ensures ndc == -1.0 ==> sx == vp.x as real
    ensures ndc == 1.0 ==> sx == (vp.x + vp.w - 1) as real
  {
    (ndc + 1.0) * 0.5 * (vp.w as real - 1.0) + vp.x as real
  }

  /** The y half of the viewport transform, flipped so that NDC +1 is near the top.
      As written it sends [-1, 1] onto [vp.y + 1, vp.y + vp.h], one row below
      the x mapping's convention. */
  function ViewportY(vp: Viewport, ndc: real): (sy: real)
    ensures ndc == 1.0 ==> sy == (vp.y + 1) as real
    ensures ndc == -1.0 ==> sy == (vp.y + vp.h) as real
  {
    vp.h as real - (ndc + 1.0) * 0.5 * (vp.h as real - 1.0) + vp.y as real
  }

  /** Maps x and y into the viewport; depth, w and attributes are kept. */
  function ViewportMap(vp: Viewport, v: Vertex): (r: Vertex)
    ensures r.position.z == v.position.z && r.position.w == v.position.w
    ensures r.attributes == v.attributes
    ensures v.position.x == -1.0 ==> r.position.x == vp.x as real
    ensures v.position.x == 1.0 ==> r.position.x == (vp.x + vp.w - 1) as real
    ensures v.position.y == 1.0 ==> r.position.y == (vp.y + 1) as real
    ensures v.position.y == -1.0 ==> r.position.y == (vp.y + vp.h) as real
  {
    v.(position := v.position.(x := ViewportX(vp, v.position.x), y := ViewportY(vp, v.position.y)))
  }

  /** A vertex after shading and the model-view transform. */
  function Eye(env: Env, v: Vertex): Vertex {
    ModelView(env.camera.view, env.model, ShadeVertex(env, v))
  }

  /** A vertex in clip space. */
  function Clip(env: Env, v: Vertex): Vertex {
    Project(env.camera.projection, Eye(env, v))
  }

  /** The stages after projection: depth substitution, divide, viewport. */
  function ToScreen(vp: Viewport, v: Vertex): Vertex
    requires v.position.w != 0.0
  {
    ViewportMap(vp, PerspectiveDivide(TrueDepth(v)))
  }

  const ViewDirection: Vec3 := Vec3(0.0, 0.0, -1.0)

  predicate Culls(env: Env, t: Triangle) {
    env.shouldCull(Truncate(Eye(env, t.v0).position), Truncate(Eye(env, t.v1).position),
                   Truncate(Eye(env, t.v2).position), ViewDirection, env.frontFace, env.cull)
  }

  /** A triangle the pipeline can take through the perspective divide: culled
      before projection, or with no clip-space corner at w = 0. */
  predicate Projectable(env: Env, t: Triangle) {
    Culls(env, t) ||
    (Clip(env, t.v0).position.w != 0.0 && Clip(env, t.v1).position.w != 0.0 &&
     Clip(env, t.v2).position.w != 0.0)
  }

  /** Every corner carries a nonzero depth, so it can be divided by. */
  predicate ValidDepths(t: Triangle) {
    t.v0.position.z != 0.0 && t.v1.position.z != 0.0 && t.v2.position.z != 0.0
  }

  datatype Primitive = Culled | Kept(tri: Triangle)

  /** One triangle of a draw taken through every stage before rasterisation. */
  function Prepare(env: Env, t: Triangle): (p: Primitive)
    requires Projectable(env, t)
    ensures p.Culled? <==> Culls(env, t)
    ensures p.Kept? ==> ValidDepths(p.tri)
    ensures p.Kept? ==>
      && p.tri.v0.position.z == -Clip(env, t.v0).position.w
      && p.tri.v1.position.z == -Clip(env, t.v1).position.w
      && p.tri.v2.position.z == -Clip(env, t.v2).position.w
    ensures p.Kept? ==>
      && p.tri.v0.attributes == ShadeVertex(env, t.v0).attributes
      && p.tri.v1.attributes == ShadeVertex(env, t.v1).attributes
      && p.tri.v2.attributes == ShadeVertex(env, t.v2).attributes
  {
    if Culls(env, t) then Culled
    else
      var vp := env.viewport;
      Kept(Triangle(ToScreen(vp, Clip(env, t.v0)), ToScreen(vp, Clip(env, t.v1)),
                    ToScreen(vp, Clip(env, t.v2))))
  }

  /** The i-th group of three vertices. */
  function TriangleAt(vertices: seq<Vertex>, i: nat): Triangle
    requires i < |vertices| / 3
  {
    Triangle(vertices[i * 3], vertices[1 + i * 3], vertices[2 + i * 3])
  }

  predicate Drawable(env: Env, vertices: seq<Vertex>) {
    forall i: nat | i < |vertices| / 3 :: Projectable(env, TriangleAt(vertices, i))
  }

  predicate KeptValid(prims: seq<Primitive>) {
    forall k | 0 <= k < |prims| :: prims[k].Kept? ==> ValidDepths(prims[k].tri)
  }

  /** The primitives of a draw: one per complete group of three vertices, in order. */
  function Triangles(env: Env, vertices: seq<Vertex>): (prims: seq<Primitive>)
    requires Drawable(env, vertices)
    ensures |prims| == |vertices| / 3
    ensures KeptValid(prims)
    ensures forall i: nat | i < |prims| :: prims[i] == Prepare(env, TriangleAt(vertices, i))
  {
    seq(|vertices| / 3, (i: nat) requires i < |vertices| / 3 && Drawable(env, vertices) =>
      Prepare(env, TriangleAt(vertices, i)))
  }

  // ---------------------------------------------------------------------------
  // Screen-space bounding box

  function StepMin(m: real, v: real): real {
    if v < m then v else m
  }

  function StepMax(m: real, v: real): real {
    if v > m then v else m
  }

  /** The fold that starts at `f32::MAX` and keeps the smaller value. */
  function FoldMin(a: real, b: real, c: real): (r: real)
    ensures r <= a && r <= b && r <= c && r <= F32_MAX
    ensures r == a || r == b || r == c || r == F32_MAX
  {
    StepMin(StepMin(StepMin(F32_MAX, a), b), c)
  }

  /** The fold that starts at `f32::MIN` and keeps the larger value. */
  function FoldMax(a: real, b: real, c: real): (r: real)
    ensures r >= a && r >= b && r >= c && r >= F32_MIN
    ensures r == a || r == b || r == c || r == F32_MIN
  {
    StepMax(StepMax(StepMax(F32_MIN, a), b), c)
  }

  function Ceil(r: real): (n: int)
    ensures r <= n as real < r + 1.0
  {
    -((-r).Floor)
  }

  function MaxReal(a: real, b: real): real {
    if a < b then b else a
  }

  function MinReal(a: real, b: real): real {
    if a < b then a else b
  }

  /** A float-to-`u32` cast: saturates at both ends, truncates in between. */
  function SaturatingU32(r: real): (n: nat)
    ensures n <= U32_MAX
    ensures r < 0.0 ==> n == 0
    ensures 0.0 <= r < U32_MAX as real ==> n == r.Floor
  {
    if r < 0.0 then 0 else if r >= U32_MAX as real then U32_MAX else r.Floor
  }

  /** Inclusive integer loop bounds of the pixel walk. */
  datatype Box = Box(xLo: nat, xHi: nat, yLo: nat, yHi: nat)

  function MinX(t: Triangle): real { FoldMin(t.v0.position.x, t.v1.position.x, t.v2.position.x) }
  function MaxX(t: Triangle): real { FoldMax(t.v0.position.x, t.v1.position.x, t.v2.position.x) }
  function MinY(t: Triangle): real { FoldMin(t.v0.position.y, t.v1.position.y, t.v2.position.y) }
  function MaxY(t: Triangle): real { FoldMax(t.v0.position.y, t.v1.position.y, t.v2.position.y) }

  /** The loop bounds as the source computes them: the minimum rounded up and
      raised to 0, the maximum rounded down and lowered to the last column or
      row, then each cast to `u32`. On a canvas at least one pixel wide and
      high, every bound lies on the canvas. */
  function Aabb(t: Triangle, width: nat, height: nat): (b: Box)
    requires width <= U32_MAX && height <= U32_MAX
    ensures width >= 1 ==> b.xHi < width
    ensures height >= 1 ==> b.yHi < height
    ensures b.xLo <= b.xHi ==> MinX(t) <= b.xLo as real
    ensures b.yLo <= b.yHi ==> MinY(t) <= b.yLo as real
    ensures b.xHi == 0 || b.xHi as real <= MaxX(t)
    ensures b.yHi == 0 || b.yHi as real <= MaxY(t)
  {
    Box(SaturatingU32(MaxReal(Ceil(MinX(t)) as real, 0.0)),
        SaturatingU32(MinReal(MaxX(t).Floor as real, width as real - 1.0)),
        SaturatingU32(MaxReal(Ceil(MinY(t)) as real, 0.0)),
        SaturatingU32(MinReal(MaxY(t).Floor as real, height as real - 1.0)))
  }

  /** The pixels the fill loop visits for a triangle. A canvas with no column or
      no row is skipped: the bounds of Aabb alone would still admit pixel column
      or row 0 there. */
  predicate Visited(t: Triangle, width: nat, height: nat, x: nat, y: nat)
    requires width <= U32_MAX && height <= U32_MAX
    ensures Visited(t, width, height, x, y) ==> x < width && y < height
  {
    var b := Aabb(t, width, height);
    width > 0 && height > 0 && b.xLo <= x <= b.xHi && b.yLo <= y <= b.yHi
  }

  // ---------------------------------------------------------------------------
  // Perspective-correct interpolation

  /** `alpha / z0 + beta / z1 + gamma / z2`. */
  function InvDepth(t: Triangle, bc: Barycentric): (r: real)
    requires ValidDepths(t)
    ensures bc.alpha == 1.0 && bc.beta == 0.0 && bc.gamma == 0.0 ==> r * t.v0.position.z == 1.0
    ensures bc.alpha == 0.0 && bc.beta == 1.0 && bc.gamma == 0.0 ==> r * t.v1.position.z == 1.0
    ensures bc.alpha == 0.0 && bc.beta == 0.0 && bc.gamma == 1.0 ==> r * t.v2.position.z == 1.0
  {
    bc.alpha / t.v0.position.z + bc.beta / t.v1.position.z + bc.gamma / t.v2.position.z
  }

  /** One scalar channel, interpolated with the 1/z weighting and scaled by z. */
  function Corrected(a0: real, a1: real, a2: real, t: Triangle, bc: Barycentric, z: real): real
    requires ValidDepths(t)
  {
    (a0 * bc.alpha / t.v0.position.z + a1 * bc.beta / t.v1.position.z
      + a2 * bc.gamma / t.v2.position.z) * z
  }

  function Corrected2(a0: Vec2, a1: Vec2, a2: Vec2, t: Triangle, bc: Barycentric, z: real): Vec2
    requires ValidDepths(t)
  {
    Vec2(Corrected(a0.x, a1.x, a2.x, t, bc, z), Corrected(a0.y, a1.y, a2.y, t, bc, z))
  }

  function Corrected3(a0: Vec3, a1: Vec3, a2: Vec3, t: Triangle, bc: Barycentric, z: real): Vec3
    requires ValidDepths(t)
  {
    Vec3(Corrected(a0.x, a1.x, a2.x, t, bc, z), Corrected(a0.y, a1.y, a2.y, t, bc, z),
         Corrected(a0.z, a1.z, a2.z, t, bc, z))
  }

  function Corrected4(a0: Vec4, a1: Vec4, a2: Vec4, t: Triangle, bc: Barycentric, z: real): Vec4
    requires ValidDepths(t)
  {
    Vec4(Corrected(a0.x, a1.x, a2.x, t, bc, z), Corrected(a0.y, a1.y, a2.y, t, bc, z),
         Corrected(a0.z, a1.z, a2.z, t, bc, z), Corrected(a0.w, a1.w, a2.w, t, bc, z))
  }

  /** Every slot of every attribute array, interpolated independently. */
  function CorrectedAttributes(z: real, t: Triangle, bc: Barycentric): Attributes
    requires ValidDepths(t)
  {
    var a0, a1, a2 := t.v0.attributes, t.v1.attributes, t.v2.attributes;
    AttributeArrays(
      seq(SLOTS, i requires 0 <= i < SLOTS => Corrected(a0.float[i], a1.float[i], a2.float[i], t, bc, z)),
      seq(SLOTS, i requires 0 <= i < SLOTS => Corrected2(a0.vec2[i], a1.vec2[i], a2.vec2[i], t, bc, z)),
      seq(SLOTS, i requires 0 <= i < SLOTS => Corrected3(a0.vec3[i], a1.vec3[i], a2.vec3[i], t, bc, z)),
      seq(SLOTS, i requires 0 <= i < SLOTS => Corrected4(a0.vec4[i], a1.vec4[i], a2.vec4[i], t, bc, z)))
  }

  // ---------------------------------------------------------------------------
  // One pixel

  function Weights(env: Env, t: Triangle, x: nat, y: nat): Barycentric {
    env.barycentric(Vec2(x as real, y as real),
                    Vec2(t.v0.position.x, t.v0.position.y),
                    Vec2(t.v1.position.x, t.v1.position.y),
                    Vec2(t.v2.position.x, t.v2.position.y))
  }

  /** Whether the helper accepts the pixel and the reconstructed depth is finite.
      Where `inv_z` is 0, the float division gives an infinite z that fails the
      near test (+inf) or the depth test (-inf) against any stored depth. */
  predicate Covers(env: Env, t: Triangle, x: nat, y: nat)
    requires ValidDepths(t)
  {
    Weights(env, t, x, y).valid && InvDepth(t, Weights(env, t, x, y)) != 0.0
  }

  /** The perspective-correct depth at a covered pixel: `1 / inv_z`. */
  function FragDepth(env: Env, t: Triangle, x: nat, y: nat): (z: real)
    requires ValidDepths(t) && Covers(env, t, x, y)
    ensures z != 0.0 && z * InvDepth(t, Weights(env, t, x, y)) == 1.0
  {
    1.0 / InvDepth(t, Weights(env, t, x, y))
  }

  /** The pixel shader's output for the interpolated attributes at a covered pixel. */
  function FragColor(env: Env, t: Triangle, x: nat, y: nat): Vec4
    requires ValidDepths(t) && Covers(env, t, x, y)
  {
    env.shader.pixel(CorrectedAttributes(FragDepth(env, t, x, y), t, Weights(env, t, x, y)),
                     env.uniforms, env.textures)
  }

  /** The three guards of a write: covered, in front of the near value, and not
      nearer than the stored depth. */
  predicate Passes(env: Env, t: Triangle, x: nat, y: nat, stored: real)
    requires ValidDepths(t)
    ensures Passes(env, t, x, y, stored) ==> stored < env.camera.near
  {
    Covers(env, t, x, y) && FragDepth(env, t, x, y) < env.camera.near
      && stored <= FragDepth(env, t, x, y)
  }

  /** The pixel after the fill loop's body ran on it. */
  function FragmentAt(env: Env, t: Triangle, x: nat, y: nat, p: Pixel): (r: Pixel)
    requires ValidDepths(t)
    ensures Passes(env, t, x, y, p.depth) ==>
              r == Pixel(FragColor(env, t, x, y), FragDepth(env, t, x, y))
    ensures !Passes(env, t, x, y, p.depth) ==> r == p
    ensures p.depth <= r.depth
  {
    var bc := Weights(env, t, x, y);
    if !bc.valid then p
    else
      var invZ := InvDepth(t, bc);
      if invZ == 0.0 then p
      else
        var z := 1.0 / invZ;
        if z < env.camera.near && p.depth <= z then
          Pixel(env.shader.pixel(CorrectedAttributes(z, t, bc), env.uniforms, env.textures), z)
        else p
  }

  /** One edge handed to the line rasteriser, seen from pixel (x, y). */
  function LineAt(env: Env, e: (Vertex, Vertex), x: nat, y: nat, p: Pixel): Pixel {
    env.line(e.0, e.1, env.shader.pixel, env.uniforms, env.textures, x, y, p)
  }

  /** The line rasteriser never lowers a stored depth: it depth-tests its writes. */
  ghost predicate LinesNeverLowerDepth(env: Env) {
    forall a: Vertex, b: Vertex, x: nat, y: nat, p: Pixel ::
      p.depth <= env.line(a, b, env.shader.pixel, env.uniforms, env.textures, x, y, p).depth
  }

  /** The pixel after a sequence of edges, drawn in order. */
  function AfterEdges(env: Env, edges: seq<(Vertex, Vertex)>, x: nat, y: nat, p: Pixel): (r: Pixel)
    ensures LinesNeverLowerDepth(env) ==> p.depth <= r.depth
    ensures (forall k, q | 0 <= k < |edges| :: LineAt(env, edges[k], x, y, q) == q) ==> r == p
    decreases |edges|
  {
    if edges == [] then p
    else
      var before := edges[..|edges| - 1];
      LineAt(env, edges[|edges| - 1], x, y, AfterEdges(env, before, x, y, p))
  }

  /** The pixel after one primitive of a draw: a culled triangle leaves it; in
      wireframe mode the three edges are drawn; otherwise the pixel changes only
      where the fill walk visits it, and then as the fragment test says. */
  function AfterPrimitive(env: Env, prim: Primitive, x: nat, y: nat, p: Pixel): (r: Pixel)
    requires prim.Kept? ==> ValidDepths(prim.tri)
    requires env.width <= U32_MAX && env.height <= U32_MAX
    ensures prim.Culled? ==> r == p
    ensures prim.Kept? && env.wireframe ==> r == AfterEdges(env, WireframeEdges(prim.tri), x, y, p)
    ensures prim.Kept? && !env.wireframe && !Visited(prim.tri, env.width, env.height, x, y) ==> r == p
    ensures (!env.wireframe || LinesNeverLowerDepth(env)) ==> p.depth <= r.depth
  {
    match prim
    case Culled => p
    case Kept(t) =>
      if env.wireframe then AfterEdges(env, WireframeEdges(t), x, y, p)
      else if Visited(t, env.width, env.height, x, y) then FragmentAt(env, t, x, y, p)
      else p
  }

  /** The pixel after a sequence of primitives, applied in order. In fill mode,
      or with a line rasteriser that depth-tests, the stored depth never
      decreases over the whole draw. */
  function AfterDraw(env: Env, prims: seq<Primitive>, x: nat, y: nat, p: Pixel): (r: Pixel)
    requires KeptValid(prims)
    requires env.width <= U32_MAX && env.height <= U32_MAX
    ensures (!env.wireframe || LinesNeverLowerDepth(env)) ==> p.depth <= r.depth
    decreases |prims|
  {
    if prims == [] then p
    else
      var before := prims[..|prims| - 1];
      assert KeptValid(before) by {
        forall k | 0 <= k < |before| ensures before[k].Kept? ==> ValidDepths(before[k].tri) {
          assert before[k] == prims[k];
        }
      }
      AfterPrimitive(env, prims[|prims| - 1], x, y, AfterDraw(env, before, x, y, p))
  }

  function Corners(t: Triangle): seq<Vertex> {
    [t.v0, t.v1, t.v2]
  }

  /** A vertex whose depth is replaced by its reciprocal; nothing else changes. */
  function ReciprocalDepth(v: Vertex): (r: Vertex)
    requires v.position.z != 0.0
    ensures r.position.z * v.position.z == 1.0
    ensures r.position.x == v.position.x && r.position.y == v.position.y && r.position.w == v.position.w
    ensures r.attributes == v.attributes
  {
    v.(position := v.position.(z := 1.0 / v.position.z))
  }

  /** The edges (k, k+1 mod 3) the wireframe branch hands to the line rasteriser,
      each endpoint with its depth replaced by the reciprocal. */
  function WireframeEdges(t: Triangle): (edges: seq<(Vertex, Vertex)>)
    requires ValidDepths(t)
    ensures |edges| == 3
    ensures forall k | 0 <= k < 3 ::
      edges[k] == (ReciprocalDepth(Corners(t)[k]), ReciprocalDepth(Corners(t)[(k + 1) % 3]))
    ensures forall k | 0 <= k < 3 :: edges[k].1 == edges[(k + 1) % 3].0
  {
    [(ReciprocalDepth(t.v0), ReciprocalDepth(t.v1)),
     (ReciprocalDepth(t.v1), ReciprocalDepth(t.v2)),
     (ReciprocalDepth(t.v2), ReciprocalDepth(t.v0))]
  }
}
