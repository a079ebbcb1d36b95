/** The `Renderer` of src/gpu_renderer.rs: a colour and a depth attachment updated
    in place, plus the configuration the triangle pipeline reads. */
module GpuRenderer {
  import opened Linear
  import opened Pipeline
  import PipelineLemmas

  /** Runs one per-vertex stage over the triangle's corners, in place. */
  method ApplyStage(vs: array<Vertex>, stage: Vertex --> Vertex)
    requires forall k | 0 <= k < vs.Length :: stage.requires(vs[k])
    modifies vs
    ensures forall k | 0 <= k < vs.Length :: vs[k] == stage(old(vs[k]))
  {
    for k := 0 to vs.Length
      invariant forall j | 0 <= j < k :: vs[j] == stage(old(vs[j]))
      invariant forall j | k <= j < vs.Length :: vs[j] == old(vs[j])
    {
      vs[k] := stage(vs[k]);
    }
  }

  class Renderer {
    var colorAttachment: array2<Vec4>
    var depthAttachment: array2<real>
    var camera: Camera
    var viewport: Viewport
    var shader: Shader
    var uniforms: Uniforms
    var frontFace: FrontFace
    var cull: FaceCull
    var wireframe: bool

    /** Both attachments cover the same W x H canvas, with `u32` dimensions. */
    ghost predicate Valid()
      reads this
    {
      colorAttachment.Length0 == depthAttachment.Length0 &&
      colorAttachment.Length1 == depthAttachment.Length1 &&
      colorAttachment.Length0 <= U32_MAX && colorAttachment.Length1 <= U32_MAX
    }

    function Width(): nat reads this { colorAttachment.Length0 }
    function Height(): nat reads this { colorAttachment.Length1 }

    /** What a draw with these arguments and collaborators depends on. */
    function EnvFor(model: Mat4, textures: TextureStorage, shouldCull: CullFn, barycentric: BarycentricFn,
                    line: LineFn): Env
      reads this
    {
      Env(camera, viewport, shader, uniforms, frontFace, cull, wireframe, Width(), Height(),
          model, textures, shouldCull, barycentric, line)
    }

    ghost function PixelAt(x: nat, y: nat): Pixel
      reads this, colorAttachment, depthAttachment
      requires Valid() && x < Width() && y < Height()
    {
      Pixel(colorAttachment[x, y], depthAttachment[x, y])
    }

    /** `shader` and `uniforms` are the shader module's defaults. */
    constructor (w: nat, h: nat, camera: Camera, shader: Shader, uniforms: Uniforms)
      requires w <= U32_MAX && h <= U32_MAX
      ensures Valid() && Width() == w && Height() == h
      ensures fresh(colorAttachment) && fresh(depthAttachment)
      ensures this.camera == camera && this.shader == shader && this.uniforms == uniforms
      ensures viewport == Viewport(0, 0, w, h)
      ensures frontFace == CCW && cull == FaceCull.None && !wireframe
    {
      colorAttachment := new Vec4[w, h];
      depthAttachment := new real[w, h];
      this.camera := camera;
      viewport := Viewport(0, 0, w, h);
      this.shader := shader;
      this.uniforms := uniforms;
      frontFace := CCW;
      cull := FaceCull.None;
      wireframe := false;
    }

    /** Sets every pixel of the colour attachment. */
    method Clear(color: Vec4)
      requires Valid()
      modifies colorAttachment
      ensures forall x, y | 0 <= x < Width() && 0 <= y < Height() :: colorAttachment[x, y] == color
    {
      forall x, y | 0 <= x < colorAttachment.Length0 && 0 <= y < colorAttachment.Length1 {
        colorAttachment[x, y] := color;
      }
    }

    /** Sets every depth cell to `f32::MIN`, below any finite fragment depth. */
    method ClearDepth()
      requires Valid()
      modifies depthAttachment
      ensures forall x, y | 0 <= x < Width() && 0 <= y < Height() :: depthAttachment[x, y] == F32_MIN
    {
      forall x, y | 0 <= x < depthAttachment.Length0 && 0 <= y < depthAttachment.Length1 {
        depthAttachment[x, y] := F32_MIN;
      }
    }

    method GetCanvaWidth() returns (w: nat)
      ensures w == colorAttachment.Length0
    {
      w := colorAttachment.Length0;
    }

    method GetCanvaHeight() returns (h: nat)
      ensures h == colorAttachment.Length1
    {
      h := colorAttachment.Length1;
    }

    method GetShader() returns (s: Shader)
      ensures s == shader
    {
      s := shader;
    }

    /** A write through the borrow `get_shader` returns. */
    method SetShader(s: Shader)
      modifies this`shader
      ensures shader == s
    {
      shader := s;
    }

    method GetUniforms() returns (u: Uniforms)
      ensures u == uniforms
    {
      u := uniforms;
    }

    /** A write through the borrow `get_uniforms` returns. */
    method SetUniforms(u: Uniforms)
      modifies this`uniforms
      ensures uniforms == u
    {
      uniforms := u;
    }

    method GetCamera() returns (c: Camera)
      ensures c == camera
    {
      c := camera;
    }

    method SetCamera(c: Camera)
      modifies this`camera
      ensures camera == c
    {
      camera := c;
    }

    method SetFrontFace(f: FrontFace)
      modifies this`frontFace
      ensures frontFace == f
    {
      frontFace := f;
    }

    method GetFrontFace() returns (f: FrontFace)
      ensures f == frontFace
    {
      f := frontFace;
    }

    method SetFaceCull(c: FaceCull)
      modifies this`cull
      ensures cull == c
    {
      cull := c;
    }

    method GetFaceCull() returns (c: FaceCull)
      ensures c == cull
    {
      c := cull;
    }

    method EnableFramework()
      modifies this`wireframe
      ensures wireframe
    {
      wireframe := true;
    }

    method DisableFramework()
      modifies this`wireframe
      ensures !wireframe
    {
      wireframe := false;
    }

    /** The pixel walk over the triangle's bounding box, x outer and y inner,
        with the depth test guarding each write. */
    method FillTriangle(t: Triangle, env: Env)
      requires Valid() && ValidDepths(t)
      requires env == EnvFor(env.model, env.textures, env.shouldCull, env.barycentric, env.line)
      modifies colorAttachment, depthAttachment
      ensures forall x: nat, y: nat | x < Width() && y < Height() ::
        PixelAt(x, y) == (if Visited(t, Width(), Height(), x, y) then FragmentAt(env, t, x, y, old(PixelAt(x, y)))
                          else old(PixelAt(x, y)))
    {
      var w, h := colorAttachment.Length0, colorAttachment.Length1;
      if w == 0 || h == 0 {
        return;
      }
      var box := Aabb(t, w, h);
      var x := box.xLo;
      while x <= box.xHi
        invariant box.xLo <= x <= if box.xLo <= box.xHi then box.xHi + 1 else box.xLo
        invariant forall px: nat, py: nat | px < w && py < h ::
          PixelAt(px, py) == (if box.xLo <= px < x && box.yLo <= py <= box.yHi
                              then FragmentAt(env, t, px, py, old(PixelAt(px, py)))
                              else old(PixelAt(px, py)))
      {
        var y := box.yLo;
        while y <= box.yHi
          invariant box.yLo <= y <= if box.yLo <= box.yHi then box.yHi + 1 else box.yLo
          invariant forall px: nat, py: nat | px < w && py < h ::
            PixelAt(px, py) == (if (box.xLo <= px < x && box.yLo <= py <= box.yHi) || (px == x && box.yLo <= py < y)
                                then FragmentAt(env, t, px, py, old(PixelAt(px, py)))
                                else old(PixelAt(px, py)))
        {
          var bc := env.barycentric(Vec2(x as real, y as real),
                                    Vec2(t.v0.position.x, t.v0.position.y),
                                    Vec2(t.v1.position.x, t.v1.position.y),
                                    Vec2(t.v2.position.x, t.v2.position.y));
          if bc.valid {
            var invZ := bc.alpha / t.v0.position.z + bc.beta / t.v1.position.z + bc.gamma / t.v2.position.z;
            // An infinite z (inv_z == 0) never passes the two tests below.
            if invZ != 0.0 {
              var z := 1.0 / invZ;
              if z < camera.near && depthAttachment[x, y] <= z {
                var attr := CorrectedAttributes(z, t, bc);
                var color := shader.pixel(attr, uniforms, env.textures);
                colorAttachment[x, y] := color;
                depthAttachment[x, y] := z;
              }
            }
          }
          y := y + 1;
        }
        x := x + 1;
      }
    }

    /** The stages one triangle goes through before rasterisation, run in place on
        a three-vertex array: vertex shading, model-view, culling (Culled), then
        projection, depth substitution, perspective divide and viewport. */
    method RunStages(env: Env, source: Triangle) returns (prim: Primitive)
      requires env == EnvFor(env.model, env.textures, env.shouldCull, env.barycentric, env.line)
      requires Projectable(env, source)
      ensures prim == Prepare(env, source)
    {
      var vs := new Vertex[3][source.v0, source.v1, source.v2];
      var sh, un, tex, view, proj, vp := shader, uniforms, env.textures, camera.view, camera.projection, viewport;
      var model := env.model;

      ApplyStage(vs, v => sh.vertex(v, un, tex));
      ApplyStage(vs, v => ModelView(view, model, v));
      if env.shouldCull(Truncate(vs[0].position), Truncate(vs[1].position), Truncate(vs[2].position),
                        ViewDirection, frontFace, cull) {
        return Culled;
      }
      ApplyStage(vs, v => Project(proj, v));
      ApplyStage(vs, v => TrueDepth(v));
      ApplyStage(vs, (v: Vertex) requires v.position.w != 0.0 => PerspectiveDivide(v));
      ApplyStage(vs, v => ViewportMap(vp, v));
      prim := Kept(Triangle(vs[0], vs[1], vs[2]));
    }

    /** One prepared primitive: nothing for a culled one, its edges for the line
        rasteriser in wireframe mode, the pixel walk otherwise. */
    method DrawPrimitive(prim: Primitive, env: Env)
      requires Valid() && (prim.Kept? ==> ValidDepths(prim.tri))
      requires env == EnvFor(env.model, env.textures, env.shouldCull, env.barycentric, env.line)
      modifies colorAttachment, depthAttachment
      ensures forall x: nat, y: nat | x < Width() && y < Height() ::
        PixelAt(x, y) == AfterPrimitive(env, prim, x, y, old(PixelAt(x, y)))
    {
      if prim.Culled? {
        return;
      }
      var t := prim.tri;
      if wireframe {
        var corners := [t.v0, t.v1, t.v2];
        ghost var edges := WireframeEdges(t);
        for i := 0 to 3
          invariant forall x: nat, y: nat | x < Width() && y < Height() ::
            PixelAt(x, y) == AfterEdges(env, edges[..i], x, y, old(PixelAt(x, y)))
        {
          var v1, v2 := corners[i], corners[(i + 1) % 3];
          v1 := v1.(position := v1.position.(z := 1.0 / v1.position.z));
          v2 := v2.(position := v2.position.(z := 1.0 / v2.position.z));
          assert (v1, v2) == edges[i];
          label Before:
          RasterizeLine(v1, v2, env);
          forall x: nat, y: nat | x < Width() && y < Height()
            ensures PixelAt(x, y) == AfterEdges(env, edges[..i + 1], x, y, old(PixelAt(x, y)))
          {
            assert old@Before(PixelAt(x, y)) == AfterEdges(env, edges[..i], x, y, old(PixelAt(x, y)));
            assert edges[..i + 1][..i] == edges[..i];
          }
        }
        assert edges[..3] == edges;
      } else {
        FillTriangle(t, env);
      }
    }

    /** The call into the line rasteriser for one edge: every pixel takes the
        colour and depth the rasteriser leaves there. */
    method RasterizeLine(v1: Vertex, v2: Vertex, env: Env)
      requires Valid()
      requires env == EnvFor(env.model, env.textures, env.shouldCull, env.barycentric, env.line)
      modifies colorAttachment, depthAttachment
      ensures forall x: nat, y: nat | x < Width() && y < Height() ::
        PixelAt(x, y) == LineAt(env, (v1, v2), x, y, old(PixelAt(x, y)))
    {
      var colors := new Vec4[colorAttachment.Length0, colorAttachment.Length1];
      forall x, y | 0 <= x < colors.Length0 && 0 <= y < colors.Length1 {
        colors[x, y] := colorAttachment[x, y];
      }
      forall x, y | 0 <= x < colorAttachment.Length0 && 0 <= y < colorAttachment.Length1 {
        colorAttachment[x, y] := LineAt(env, (v1, v2), x, y, Pixel(colors[x, y], depthAttachment[x, y])).color;
      }
      forall x, y | 0 <= x < depthAttachment.Length0 && 0 <= y < depthAttachment.Length1 {
        depthAttachment[x, y] := LineAt(env, (v1, v2), x, y, Pixel(colors[x, y], depthAttachment[x, y])).depth;
      }
    }

    /** Draws `|vertices| / 3` triangles, in order; trailing vertices are ignored. */
    method DrawTriangle(model: Mat4, vertices: seq<Vertex>, textures: TextureStorage,
                        shouldCull: CullFn, barycentric: BarycentricFn, line: LineFn)
      requires Valid()
      requires Drawable(EnvFor(model, textures, shouldCull, barycentric, line), vertices)
      modifies colorAttachment, depthAttachment
      ensures forall x: nat, y: nat | x < Width() && y < Height() ::
        PixelAt(x, y) == AfterDraw(EnvFor(model, textures, shouldCull, barycentric, line),
                                   Triangles(EnvFor(model, textures, shouldCull, barycentric, line), vertices),
                                   x, y, old(PixelAt(x, y)))
      ensures (!wireframe || LinesNeverLowerDepth(EnvFor(model, textures, shouldCull, barycentric, line))) ==>
        forall x: nat, y: nat | x < Width() && y < Height() :: old(depthAttachment[x, y]) <= depthAttachment[x, y]
      ensures |vertices| < 3 ==>
        forall x: nat, y: nat | x < Width() && y < Height() :: PixelAt(x, y) == old(PixelAt(x, y))
    {
      var env := EnvFor(model, textures, shouldCull, barycentric, line);
      ghost var prims := Triangles(env, vertices);
      for i := 0 to |vertices| / 3
        invariant forall x: nat, y: nat | x < Width() && y < Height() ::
          PixelAt(x, y) == AfterDraw(env, prims[..i], x, y, old(PixelAt(x, y)))
      {
        assert prims[..i + 1][..i] == prims[..i];
        var prim := RunStages(env, TriangleAt(vertices, i));
        assert prim == prims[i];
        label Before:
        DrawPrimitive(prim, env);
        forall x: nat, y: nat | x < Width() && y < Height()
          ensures PixelAt(x, y) == AfterDraw(env, prims[..i + 1], x, y, old(PixelAt(x, y)))
        {
          assert old@Before(PixelAt(x, y)) == AfterDraw(env, prims[..i], x, y, old(PixelAt(x, y)));
          PipelineLemmas.AfterDrawStep(env, prims, i, x, y, old(PixelAt(x, y)));
        }
      }
      assert prims[..|vertices| / 3] == prims;
      forall x: nat, y: nat | x < Width() && y < Height()
        ensures (!wireframe || LinesNeverLowerDepth(env)) ==> old(depthAttachment[x, y]) <= depthAttachment[x, y]
        ensures |vertices| < 3 ==> PixelAt(x, y) == old(PixelAt(x, y))
      {
        assert PixelAt(x, y) == AfterDraw(env, prims, x, y, old(PixelAt(x, y)));
        if |vertices| < 3 {
          PipelineLemmas.FewerThanThreeVerticesDrawNothing(env, vertices, x, y, old(PixelAt(x, y)));
        }
      }
    }
  }
}
